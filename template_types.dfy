/**
 * The template document shared by the exporter and the importer
 * (src/types/types.ts). Free-form JSON objects (`data`, `style`) are string
 * maps; a field set to `undefined` is a key that is absent, which is what the
 * JSON form of the template keeps of it.
 */
module TemplateTypes {
  import opened Wrappers

  /** Free-form visual attributes of an item (`style?: any`). */
  type Style = map<string, string>

  /** Centre coordinates of an item on the board. */
  datatype Position = Position(x: real, y: real)

  /** Optional width and height of an item. */
  datatype Geometry = Geometry(width: Option<int>, height: Option<int>)

  /** The data binding a placeholder frame carries: query, limit and an optional per-sticky style. */
  datatype Placeholder = Placeholder(query: string, limit: int, style: Option<Style>)

  /** One placed element of a template. `parent` is the synthetic id of the enclosing item. */
  datatype TemplateItem = TemplateItem(
    id: string,
    itemType: string,
    data: map<string, string>,
    geometry: Option<Geometry>,
    position: Option<Position>,
    parent: Option<string>,
    style: Option<Style>,
    placeholder: Option<Placeholder>)

  /** The persisted template: a name, the template id and the items in creation order. */
  datatype Template = Template(name: string, templateId: string, items: seq<TemplateItem>)

  /** The nine item kinds the remote board service can create and read. */
  const ItemTypes: set<string> :=
    {"app_card", "card", "document", "embed", "frame", "image", "shape", "sticky_note", "text"}

  /** JavaScript truthiness of an optional string: present and not empty. */
  predicate Truthy(s: Option<string>)
  {
    s.Some? && s.value != ""
  }

  /** JavaScript truthiness of an optional number: present and not zero. */
  predicate NonZero(n: Option<int>)
  {
    n.Some? && n.value != 0
  }

  /** The value of key `k` in a free-form object, `undefined` when absent. */
  function Lookup(m: map<string, string>, k: string): Option<string>
  {
    if k in m then Some(m[k]) else None
  }
}
