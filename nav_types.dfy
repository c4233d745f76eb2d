/** Navigation content as the CMS supplies it: items, their disclosure
    columns and the links inside a column. All of it is immutable data. */
module NavTypes {

  datatype Option<T> = None | Some(value: T)

  /** A leaf link of a mega-menu column. */
  datatype MenuLink = MenuLink(text: string, href: string)

  /** One column of a mega menu: a header and its links. */
  datatype MenuColumn = MenuColumn(header: string, links: seq<MenuLink>)

  /** The image value of an icon field; either part may be missing. */
  datatype ImageValue = ImageValue(src: Option<string>, alt: Option<string>)

  /** An icon field, whose `value` may be missing. */
  datatype IconField = IconField(value: Option<ImageValue>)

  /** A navigation item. The icon field, its value and its source may each
      be absent; `columns` is absent when the content omits it. */
  datatype NavItem = NavItem(
    id: string,
    labelText: string,
    icon: Option<IconField>,
    columns: Option<seq<MenuColumn>>)

  /** `item.fields.icon?.value?.src`: absent as soon as one link of the
      chain is. */
  function IconSrc(item: NavItem): Option<string>
  {
    match item.icon
    case None => None
    case Some(IconField(None)) => None
    case Some(IconField(Some(ImageValue(src, _)))) => src
  }

  /** `columns?.length ?? 0`: a missing column list counts as empty. */
  function ColumnCount(item: NavItem): (n: nat)
    ensures n > 0 <==> item.columns.Some? && item.columns.value != []
  {
    match item.columns
    case None => 0
    case Some(cols) => |cols|
  }

  /** `k` is the position of the first item whose id is `id`. */
  ghost predicate FirstWithId(items: seq<NavItem>, id: string, k: int)
  {
    0 <= k < |items| && items[k].id == id &&
    forall j :: 0 <= j < k ==> items[j].id != id
  }

  /** At most one position can be the first one carrying an id. */
  lemma FirstWithIdUnique(items: seq<NavItem>, id: string, k: int, k': int)
    requires FirstWithId(items, id, k) && FirstWithId(items, id, k')
    ensures k == k'
  {
  }
}
