/** Failure-carrying wrappers and the JSON-like values that flow through a work
    descriptor's `args`, the correction service's reply and the publisher's
    asset mapping. */
module Values {

  datatype Option<+T> = None | Some(value: T) {
    function GetOr(default: T): T {
      match this
      case Some(v) => v
      case None => default
    }
  }

  datatype Result<+T, +E> = Ok(value: T) | Err(error: E)

  /** A Python value as JSON decoding or a publisher produces it. A dict keeps
      its insertion order (iteration over `values()` follows it), so it is an
      association list; Python's dicts never hold a key twice. */
  datatype Value =
    | VNull
    | VBool(b: bool)
    | VNum(x: real)
    | VStr(s: string)
    | VList(items: seq<Value>)
    | VDict(entries: seq<(string, Value)>)

  /** Python truthiness (`if cloud:` / `if result and ...`). */
  predicate Truthy(v: Value): (r: bool)
    // the falsy values are None, False, zero and the empty containers
    ensures !r <==> v in {VNull, VBool(false), VNum(0.0), VStr(""), VList([]), VDict([])}
  {
    match v
    case VNull => false
    case VBool(b) => b
    case VNum(x) => x != 0.0
    case VStr(s) => s != ""
    case VList(items) => items != []
    case VDict(entries) => entries != []
  }

  /** `d.get(key)` on a dict's entries: the value stored under `key`, looked up
      from the first entry on. */
  function Lookup(entries: seq<(string, Value)>, key: string): Option<Value>
  {
    if entries == [] then None
    else if entries[0].0 == key then Some(entries[0].1)
    else Lookup(entries[1..], key)
  }

  /** A value is found exactly when some entry has the key, and the value
      found is stored under that key. */
  lemma {:induction false} LookupMeaning(entries: seq<(string, Value)>, key: string)
    ensures Lookup(entries, key).Some? <==> exists i :: 0 <= i < |entries| && entries[i].0 == key
    ensures Lookup(entries, key).Some? ==> exists i :: 0 <= i < |entries| && entries[i] == (key, Lookup(entries, key).value)
  {
    if entries != [] && entries[0].0 != key {
      LookupMeaning(entries[1..], key);
      assert forall i :: 1 <= i < |entries| ==> entries[i] == entries[1..][i - 1];
    }
  }

  /** The outside party whose failure a handler lets propagate. */
  datatype Collaborator =
    | Store       // create_execution's activity and history writes
    | Downloader  // download_landsat_images
    | ItemStore   // collection_item.save()
    | EspaHttp    // the HTTP GET to the correction service
    | JsonDecoder // req.json() on a body that is not JSON
    | Publisher   // publish(collection_item, activity)
    | Uploader    // upload_file

  /** The exceptions a handler raises. */
  datatype Exception =
    | IndexError
    | ValueError
    | KeyError(key: string)
    | TypeError
    | AttributeError
    | AssertionError
    | RuntimeError(message: string)
    | Raised(party: Collaborator)
}
