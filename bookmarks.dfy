// The values the bookmark store works with: links, tags, the payload for a
// new link, and the kind of list a cache belongs to.

module Bookmarks {

  datatype Option<T> = None | Some(value: T)

  /** A tag of the link-archiving service. */
  datatype Tag = Tag(name: string, isFavorite: bool)

  /** A bookmark as the service returns it; `id` is assigned by the service. */
  datatype Link = Link(
    id: string,
    url: string,
    title: Option<string>,
    description: Option<string>,
    tags: seq<string>)

  /** The payload for creating a link: a Link without its id. */
  datatype PostLink = PostLink(
    url: string,
    title: Option<string>,
    description: Option<string>,
    tags: seq<string>)

  /** Which list a cache serves: every link, the tag index, or one tag's links.
      Equality is structural, so `TagScoped` keys compare their whole Tag. */
  datatype ListType = All | Tags | TagScoped(tag: Tag)

  /** The tag filter sent to the client for a list: only a tag-scoped list
      filters, and then by exactly its own tag's name. */
  function ScopedTags(t: ListType): (r: seq<string>)
    ensures |r| <= 1
    ensures forall name :: name in r <==> t.TagScoped? && name == t.tag.name
  {
    match t
    case All => []
    case TagScoped(tag) => [tag.name]
    case Tags => []
  }
}
