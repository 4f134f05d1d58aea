/**
 * `instantiate_tag` of both scripts: mutagen's frame class for a frame id,
 * looked up by reflection, decides by its first base class how a JSON value
 * becomes a frame. Reflection is modelled by a registry from frame id to that
 * base class; a frame id the registry lacks is one `getattr` cannot find.
 */
module FrameBuilder {
  import opened Wrappers
  import opened Values

  /** The first base class of a mutagen frame class, as far as the dispatch looks at it. */
  datatype Base =
    | TextFrame | NumericTextFrame | NumericPartTextFrame | TimeStampTextFrame
    | UrlFrame | UrlFrameU
    | TIPL | PairedTextFrame
    | OtherBase

  /** The four ways the dispatch treats a frame class. */
  datatype Kind = TextKind | UrlKind | PairedKind | OtherKind

  function KindOf(b: Base): Kind {
    match b
    case TextFrame | NumericTextFrame | NumericPartTextFrame | TimeStampTextFrame => TextKind
    case UrlFrame | UrlFrameU => UrlKind
    case TIPL | PairedTextFrame => PairedKind
    case OtherBase => OtherKind
  }

  /** The frame classes of `mutagen.id3` by name, each with its first base class. */
  type Registry = map<string, Base>

  /** `default_encoding`: UTF-8 in ID3v2.4 numbering. */
  const DefaultEncoding: int := 3

  /** What ends up in a Python list when `instantiate_tag` returns a frame or `None`. */
  function ToPy(f: Option<Frame>): (v: PyValue)
    ensures f.None? <==> v.Null?
    ensures f.Some? ==> v == FrameObj(f.value)
  {
    if f.Some? then FrameObj(f.value) else Null
  }

  /**
   * `if "encoding" not in value: value["encoding"] = default_encoding`:
   * the dict afterwards, a new key going to the end.
   */
  function WithDefaultEncoding(entries: seq<(string, PyValue)>): (r: seq<(string, PyValue)>)
    ensures HasKey(r, "encoding")
    ensures HasKey(entries, "encoding") ==> r == entries
    ensures !HasKey(entries, "encoding") ==> r == entries + [("encoding", Int(DefaultEncoding))]
  {
    if HasKey(entries, "encoding") then entries
    else
      assert Keys(entries + [("encoding", Int(DefaultEncoding))])[|entries|] == "encoding";
      entries + [("encoding", Int(DefaultEncoding))]
  }

  /**
   * The str branch of `instantiate_tag` in mp3_tagging.py, which is the whole
   * of `instantiate_tag` in mp3_metadata.py: the frame a class of base `base`
   * builds from `value`, or `None` for a class the dispatch does not know.
   */
  function BuildByKind(tag: string, base: Base, value: PyValue): (f: Option<Frame>)
    ensures f.None? <==> KindOf(base) == OtherKind
    ensures f.Some? ==> FrameId(f.value) == tag
  {
    match KindOf(base)
    case TextKind => Some(TextLike(tag, DefaultEncoding, value))
    case UrlKind =>
      if tag == "WXXX" then Some(UserUrl(tag, DefaultEncoding, value)) else Some(PlainUrl(tag, value))
    case PairedKind => Some(PairedLike(tag, DefaultEncoding, value))
    case OtherKind => None
  }

  /**
   * `instantiate_tag` of mp3_tagging.py. `getattr` comes first, so an unknown
   * frame id raises whatever the value; then a string is dispatched on the
   * class's kind, a dict builds the frame from its fields with the default
   * encoding added, and any other value gives `None`.
   */
  function InstantiateTag(registry: Registry, tag: string, value: PyValue): (r: Result<Option<Frame>, Fault>)
    ensures r.Failure? <==> tag !in registry
    ensures r.Failure? ==> r.error == AttributeError
    ensures r.Success? && r.value.Some? ==> FrameId(r.value.value) == tag
    ensures r.Success? && r.value.None? <==>
      tag in registry && !value.Dict? && (value.Str? ==> KindOf(registry[tag]) == OtherKind)
    ensures tag in registry && value.Dict? ==>
      r == Success(Some(FromFields(tag, WithDefaultEncoding(value.entries))))
  {
    if tag !in registry then Failure(AttributeError)
    else if value.Str? then Success(BuildByKind(tag, registry[tag], value))
    else if value.Dict? then Success(Some(FromFields(tag, WithDefaultEncoding(value.entries))))
    else Success(None)
  }

  /**
   * `instantiate_tag` of mp3_metadata.py: the same dispatch on the class's
   * kind, applied to any value without looking at its type: a dict, a list
   * or a number becomes the text, url or people of the frame just as a
   * string does.
   */
  function InstantiateTagMeta(registry: Registry, tag: string, value: PyValue): (r: Result<Option<Frame>, Fault>)
    ensures r.Failure? <==> tag !in registry
    ensures r.Failure? ==> r.error == AttributeError
    ensures tag in registry ==> r.Success? && var k := KindOf(registry[tag]);
      && (k == TextKind ==> r.value == Some(TextLike(tag, 3, value)))
      && (k == UrlKind && tag == "WXXX" ==> r.value == Some(UserUrl(tag, 3, value)))
      && (k == UrlKind && tag != "WXXX" ==> r.value == Some(PlainUrl(tag, value)) && Encoding(r.value.value).None?)
      && (k == PairedKind ==> r.value == Some(PairedLike(tag, 3, value)))
      && (k == OtherKind ==> r.value == None)
      && (r.value.Some? ==> Payload(r.value.value) == Some(value))
  {
    if tag !in registry then Failure(AttributeError)
    else Success(BuildByKind(tag, registry[tag], value))
  }

  /** The value a built frame carries: its text, url, people or field dict. */
  function Payload(f: Frame): Option<PyValue> {
    match f
    case TextLike(_, _, text) => Some(text)
    case UserUrl(_, _, url) => Some(url)
    case PlainUrl(_, url) => Some(url)
    case PairedLike(_, _, people) => Some(people)
    case FromFields(_, fields) => Some(Dict(fields))
    case _ => None
  }

  /** The `encoding` a frame was given, if it was given one. */
  function Encoding(f: Frame): Option<PyValue> {
    match f
    case TextLike(_, e, _) => Some(Int(e))
    case UserUrl(_, e, _) => Some(Int(e))
    case PairedLike(_, e, _) => Some(Int(e))
    case FromFields(_, fields) => Lookup(fields, "encoding")
    case _ => None
  }

  // ----- what the builders promise -----

  /**
   * A string value is dispatched by kind: text-like, WXXX and paired-text
   * classes get encoding 3 and the string as their payload, the other URL
   * classes the bare url, and any other class gives `None`.
   */
  lemma StringDispatch(base: Base, tag: string, s: string)
    ensures var f := BuildByKind(tag, base, Str(s));
      && (KindOf(base) == TextKind ==> f == Some(TextLike(tag, 3, Str(s))))
      && (KindOf(base) == UrlKind && tag == "WXXX" ==> f == Some(UserUrl(tag, 3, Str(s))))
      && (KindOf(base) == UrlKind && tag != "WXXX" ==> f == Some(PlainUrl(tag, Str(s))) && Encoding(f.value).None?)
      && (KindOf(base) == PairedKind ==> f == Some(PairedLike(tag, 3, Str(s))))
      && (f.Some? ==> Payload(f.value) == Some(Str(s)))
  {
  }

  /** The two scripts build the same frame from a string value. */
  lemma InstantiateAgreesOnStrings(registry: Registry, tag: string, s: string)
    ensures InstantiateTag(registry, tag, Str(s)) == InstantiateTagMeta(registry, tag, Str(s))
  {
  }

  /**
   * The encoding a built frame carries is 3, except that a dict which names
   * its own encoding keeps it.
   */
  lemma EncodingIsDefault(registry: Registry, tag: string, value: PyValue)
    requires InstantiateTag(registry, tag, value).Success?
    requires InstantiateTag(registry, tag, value).value.Some?
    ensures var f := InstantiateTag(registry, tag, value).value.value;
      Encoding(f).Some? ==>
        if value.Dict? && HasKey(value.entries, "encoding")
        then Encoding(f) == Lookup(value.entries, "encoding")
        else Encoding(f) == Some(Int(3))
  {
    if value.Dict? && !HasKey(value.entries, "encoding") {
      DefaultEncodingLookup(value.entries);
    }
  }

  /**
   * Adding the default encoding touches no other key: every key keeps its
   * value, and "encoding" maps to its old value or, if it had none, to 3.
   */
  lemma {:induction false} DefaultEncodingLookup(entries: seq<(string, PyValue)>)
    ensures forall k :: k != "encoding" ==> Lookup(WithDefaultEncoding(entries), k) == Lookup(entries, k)
    ensures Lookup(WithDefaultEncoding(entries), "encoding") ==
      if HasKey(entries, "encoding") then Lookup(entries, "encoding") else Some(Int(DefaultEncoding))
  {
    if !HasKey(entries, "encoding") {
      forall k ensures Lookup(entries + [("encoding", Int(DefaultEncoding))], k) ==
        if HasKey(entries, k) then Lookup(entries, k)
        else if k == "encoding" then Some(Int(DefaultEncoding)) else None
      {
        LookupAppend(entries, "encoding", Int(DefaultEncoding), k);
      }
    }
  }

  lemma {:induction false} LookupAppend(entries: seq<(string, PyValue)>, key: string, v: PyValue, k: string)
    ensures Lookup(entries + [(key, v)], k) ==
      if HasKey(entries, k) then Lookup(entries, k)
      else if k == key then Some(v) else None
    decreases |entries|
  {
    if entries == [] {
      assert [(key, v)][1..] == [];
    } else {
      assert (entries + [(key, v)])[1..] == entries[1..] + [(key, v)];
      assert Keys(entries) == [entries[0].0] + Keys(entries[1..]);
      LookupAppend(entries[1..], key, v, k);
    }
  }

  /** Adding the default encoding twice is adding it once. */
  lemma DefaultEncodingIdempotent(entries: seq<(string, PyValue)>)
    ensures WithDefaultEncoding(WithDefaultEncoding(entries)) == WithDefaultEncoding(entries)
  {
  }
}
