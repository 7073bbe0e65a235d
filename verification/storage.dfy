/**
 * The device's key-value store (`AsyncStorage`) as the template code sees it:
 * each key holds text that is empty, not JSON, or JSON. Values are kept already
 * parsed, so writing `JSON.stringify(v)` and reading it back gives `v`.
 */
module Storage {
  import opened Options

  /**
   * A saved template record. The list entries carry only the metadata, so
   * `state` is `None` there; the full snapshot carries its dashboard state as
   * uninterpreted JSON text.
   */
  datatype Template = Template(
    id: string, name: string, createdAt: string, updatedAt: string, screen: string,
    state: Option<string>)

  /** A parsed JSON value: an array of records, one record, or anything else. */
  datatype Json = Array(elems: seq<Template>) | Object(obj: Template) | Scalar

  /** What a key holds: empty text (falsy), text that does not parse, or JSON. */
  datatype Raw = Empty | Unparsable | Parsed(json: Json)

  /** The store itself. */
  class Store {
    var data: map<string, Raw>

    constructor (initial: map<string, Raw>)
      ensures data == initial
    {
      data := initial;
    }

    /** `getItem`: the text under `key`, or `null` (here `None`) when there is none. */
    method GetItem(key: string) returns (raw: Option<Raw>)
      ensures key in data ==> raw == Some(data[key])
      ensures key !in data ==> raw.None?
    {
      if key in data {
        raw := Some(data[key]);
      } else {
        raw := None;
      }
    }

    /** `setItem(key, JSON.stringify(v))`. */
    method SetItem(key: string, v: Json)
      modifies this
      ensures data == old(data)[key := Parsed(v)]
    {
      data := data[key := Parsed(v)];
    }

    /** `removeItem`. */
    method RemoveItem(key: string)
      modifies this
      ensures data == old(data) - {key}
    {
      data := data - {key};
    }
  }
}
