// One list's cache (`ListState`) and the two pure rewrites the store applies
// to every cache after a successful edit: `Updated` (match by id, replace the
// first match in place) and `Deleted` (remove every link equal by value).

module ListCache {
  import opened Bookmarks

  /** The cached pages of one list plus its pagination and search metadata. */
  datatype ListState = ListState(
    links: seq<Link>,
    tagScope: Option<string>,
    canLoadMore: bool,
    searchText: string,
    didLoad: bool)

  /** The cache a list starts from before it was ever written. */
  const Fresh: ListState := ListState([], None, false, "", false)

  /** `a` is `b` with some elements dropped and the rest kept in order. */
  predicate SubsequenceOf(a: seq<Link>, b: seq<Link>)
    decreases |b|
  {
    a == [] || (b != [] && ((a[0] == b[0] && SubsequenceOf(a[1..], b[1..])) || SubsequenceOf(a, b[1..])))
  }

  /** Some element of `links` carries identity `id`. */
  predicate HasId(links: seq<Link>, id: string)
  {
    exists l :: l in links && l.id == id
  }

  /** `j` is the position of the first element of `links` whose id is `id`. */
  predicate IsFirstWithId(links: seq<Link>, j: int, id: string)
  {
    0 <= j < |links| && links[j].id == id && forall i :: 0 <= i < j ==> links[i].id != id
  }

  /** The position of the first link with identity `id`, as Swift's
      `firstIndex(where:)` finds it. */
  function FirstIndexOfId(links: seq<Link>, id: string): (r: Option<nat>)
    ensures r.Some? ==> IsFirstWithId(links, r.value, id)
    ensures r.None? <==> !HasId(links, id)
  {
    if links == [] then None
    else if links[0].id == id then Some(0)
    else
      match FirstIndexOfId(links[1..], id)
      case None =>
        assert forall l :: l in links ==> l == links[0] || l in links[1..];
        None
      case Some(i) => Some(i + 1)
  }

  /** `links` with every element equal to `link` removed, as Swift's
      `removeAll { link == $0 }` leaves it. */
  function Without(links: seq<Link>, link: Link): (r: seq<Link>)
    ensures SubsequenceOf(r, links)
    ensures multiset(r) == multiset(links)[link := 0]
    ensures |r| <= |links|
  {
    if links == [] then []
    else
      assert links == [links[0]] + links[1..];
      var rest := Without(links[1..], link);
      if links[0] == link then rest else [links[0]] + rest
  }

  /** The cache after the service accepted `link` as an edit: the first cached
      link with the same id is replaced in place; nothing else changes. */
  function Updated(link: Link, ls: ListState): (r: ListState)
    ensures r.(links := ls.links) == ls
    ensures |r.links| == |ls.links|
    ensures forall j :: 0 <= j < |r.links| ==>
      r.links[j] == if IsFirstWithId(ls.links, j, link.id) then link else ls.links[j]
    ensures !HasId(ls.links, link.id) ==> r == ls
  {
    match FirstIndexOfId(ls.links, link.id)
    case None => ls
    case Some(index) => ls.(links := ls.links[index := link])
  }

  /** The cache after the service deleted `link`: every cached copy equal to
      it in all fields is gone, the others stay in order. */
  function Deleted(link: Link, ls: ListState): (r: ListState)
    ensures r.(links := ls.links) == ls
    ensures link !in r.links
    ensures SubsequenceOf(r.links, ls.links)
    ensures forall x :: x in ls.links && x != link ==> x in r.links
    ensures r.links == Without(ls.links, link)
  {
    var kept := Without(ls.links, link);
    assert multiset(kept)[link] == 0;
    assert forall x :: x in ls.links && x != link ==> multiset(kept)[x] == multiset(ls.links)[x];
    ls.(links := kept)
  }

  lemma {:induction false} SubsequenceMultiset(a: seq<Link>, b: seq<Link>)
    requires SubsequenceOf(a, b)
    ensures multiset(a) <= multiset(b)
    decreases |b|
  {
    if a == [] {
    } else if a[0] == b[0] && SubsequenceOf(a[1..], b[1..]) {
      SubsequenceMultiset(a[1..], b[1..]);
      assert a == [a[0]] + a[1..];
      assert b == [b[0]] + b[1..];
    } else {
      SubsequenceMultiset(a, b[1..]);
      assert b == [b[0]] + b[1..];
    }
  }

  /** The contract of `Without` determines its result: the only subsequence
      of `links` holding exactly the elements other than `link` is the one
      that keeps all of them. */
  lemma {:induction false} WithoutIsUnique(links: seq<Link>, link: Link, kept: seq<Link>)
    requires SubsequenceOf(kept, links)
    requires multiset(kept) == multiset(links)[link := 0]
    ensures kept == Without(links, link)
    decreases |links|
  {
    if links == [] {
      assert multiset(kept) == multiset{};
    } else {
      var h, t := links[0], links[1..];
      assert links == [h] + t;
      if h == link {
        assert multiset(links)[link := 0] == multiset(t)[link := 0];
        if kept != [] {
          assert kept[0] in multiset(kept);
          assert kept[0] != h;
        }
        WithoutIsUnique(t, link, kept);
      } else {
        assert multiset(kept)[h] == multiset(t)[h] + 1;
        assert kept != [];
        if kept[0] == h && SubsequenceOf(kept[1..], t) {
          assert kept == [h] + kept[1..];
          assert multiset(kept) == multiset{h} + multiset(kept[1..]);
          assert multiset(links) == multiset{h} + multiset(t);
          forall x ensures multiset(kept[1..])[x] == multiset(t)[link := 0][x] {
            if x == link {
              assert multiset(kept)[x] == 0;
            } else {
              assert multiset(kept)[x] == multiset(links)[x];
              assert multiset(kept)[x] == multiset{h}[x] + multiset(kept[1..])[x];
              assert multiset(links)[x] == multiset{h}[x] + multiset(t)[x];
            }
          }
          assert multiset(kept[1..]) == multiset(t)[link := 0];
          WithoutIsUnique(t, link, kept[1..]);
        } else {
          SubsequenceMultiset(kept, t);
          assert false;
        }
      }
    }
  }
}
