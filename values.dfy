/**
 * The Python values the scripts handle -- what `json.load` produces, plus the
 * mutagen frame objects that end up inside lists and dicts -- and the few
 * Python operations the scripts apply to them (`in`, `[...]`, `.items()`,
 * iteration). A raised exception is a `Fault`.
 */
module Values {
  import opened Wrappers
  import opened PyStr

  /** The exceptions the scripts can raise and do not catch. */
  datatype Fault = AttributeError | TypeError | KeyError | ValueError | NameError

  /** A dict is its entries in insertion order. */
  datatype PyValue =
    | Null
    | Bool(b: bool)
    | Int(n: int)
    | Float(x: real)
    | Str(s: string)
    | List(items: seq<PyValue>)
    | Dict(entries: seq<(string, PyValue)>)
    | FrameObj(frame: Frame)

  /** The ID3 frames the scripts construct, one constructor per call shape. */
  datatype Frame =
      /** `cls(encoding = e, text = v)` for a text-like frame class */
    | TextLike(id: string, encoding: int, text: PyValue)
      /** `WXXX(encoding = e, url = v)` */
    | UserUrl(id: string, encoding: int, url: PyValue)
      /** `cls(v)` for any other URL frame class: no encoding */
    | PlainUrl(id: string, url: PyValue)
      /** `cls(encoding = e, people = v)` for a paired-text frame class */
    | PairedLike(id: string, encoding: int, people: PyValue)
      /** `cls(**fields)` */
    | FromFields(id: string, fields: seq<(string, PyValue)>)
      /** `CHAP(element_id, start_time = ..., end_time = ..., sub_frames = ...)` */
    | Chap(elementId: string, startTime: int, endTime: int, subFrames: seq<PyValue>)
      /** `CTOC(element_id, flags, child_element_ids)` */
    | Ctoc(elementId: string, flags: bv8, childElementIds: seq<string>)

  /** The four-letter frame id of a frame. */
  function FrameId(f: Frame): string {
    match f
    case TextLike(id, _, _) => id
    case UserUrl(id, _, _) => id
    case PlainUrl(id, _) => id
    case PairedLike(id, _, _) => id
    case FromFields(id, _) => id
    case Chap(_, _, _, _) => "CHAP"
    case Ctoc(_, _, _) => "CTOC"
  }

  // ----- dicts -----

  function Keys(entries: seq<(string, PyValue)>): (ks: seq<string>)
    ensures |ks| == |entries|
    ensures forall i :: 0 <= i < |entries| ==> ks[i] == entries[i].0
  {
    seq(|entries|, i requires 0 <= i < |entries| => entries[i].0)
  }

  /** `key in d` for a dict */
  predicate HasKey(entries: seq<(string, PyValue)>, key: string) {
    key in Keys(entries)
  }

  /** `d.get(key)`: the value of the first entry with that key. */
  function Lookup(entries: seq<(string, PyValue)>, key: string): (r: Option<PyValue>)
    ensures r.Some? <==> HasKey(entries, key)
    decreases |entries|
  {
    if entries == [] then None
    else if entries[0].0 == key then Some(entries[0].1)
    else
      assert Keys(entries) == [entries[0].0] + Keys(entries[1..]);
      Lookup(entries[1..], key)
  }

  /** A Python dict never holds a key twice. */
  ghost predicate UniqueKeys(entries: seq<(string, PyValue)>) {
    forall i, j :: 0 <= i < j < |entries| ==> entries[i].0 != entries[j].0
  }

  // ----- the Python operations the scripts use -----

  /** `item in container` for a string `item` */
  function Contains(container: PyValue, item: string): (r: Result<bool, Fault>)
  {
    match container
    case Dict(entries) => Success(HasKey(entries, item))
    case Str(s) => Success(HasSubstring(s, item))
    case List(items) => Success(Str(item) in items)
    case _ => Failure(TypeError)
  }

  /** `container[key]` for a string `key` */
  function GetItem(container: PyValue, key: string): (r: Result<PyValue, Fault>)
  {
    match container
    case Dict(entries) =>
      (match Lookup(entries, key)
       case Some(v) => Success(v)
       case None => Failure(KeyError))
    case _ => Failure(TypeError)
  }

  /** `d.items()` */
  function Items(v: PyValue): (r: Result<seq<(string, PyValue)>, Fault>)
  {
    if v.Dict? then Success(v.entries) else Failure(AttributeError)
  }

  /** `for x in v`: a list's items, a string's characters, a dict's keys. */
  function Iterate(v: PyValue): (r: Result<seq<PyValue>, Fault>)
  {
    match v
    case List(items) => Success(items)
    case Str(s) => Success(seq(|s|, i requires 0 <= i < |s| => Str([s[i]])))
    case Dict(entries) => Success(seq(|entries|, i requires 0 <= i < |entries| => Str(entries[i].0)))
    case _ => Failure(TypeError)
  }
}
