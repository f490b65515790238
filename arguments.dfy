/**
 * The request argument parser: one map from argument name to value, filled
 * first from the URI's query arguments and then from the request body, either
 * URL-encoded or multipart. Body arguments are put after URI arguments, so on
 * a shared name the body's value is the one that stays.
 */
module Arguments {
  import opened Common

  /** An argument value: text, or the raw bytes of an uploaded file. */
  datatype Value = Text(text: string) | Bytes(data: seq<bv8>)

  /** One part of a multipart body as the upload iterator delivers it. */
  datatype Part = Part(fieldName: string, isFormField: bool, content: seq<bv8>)

  /**
   * A request entity. The header values are None when the header is absent.
   * `text` is what reading the whole entity as a string yields (or the failure
   * it raises); `items` is what the multipart iterator yields, in stream order,
   * an Err standing for a failure raised while advancing to or reading a part.
   */
  datatype Entity = Entity(
    contentType: Option<string>,
    contentEncoding: Option<string>,
    text: Result<string, Failure>,
    items: seq<Result<Part, Failure>>)

  /** NotEnclosing: the request cannot carry an entity; Enclosing(None): it could but has none. */
  datatype Body = NotEnclosing | Enclosing(entity: Option<Entity>)

  datatype HttpRequest = HttpRequest(methodName: string, uri: string, body: Body)

  /**
   * The library calls the parser relies on: the URI query parser, the parser
   * of URL-encoded contents (both may answer null, here None, or throw), the
   * URL decoder taking the text and a character encoding name, and the reading
   * of a form field's stream as text.
   */
  datatype Codec = Codec(
    uriArguments: string -> Result<Option<map<string, string>>, Failure>,
    contentsArguments: string -> Result<Option<map<string, string>>, Failure>,
    urlDecode: (string, string) -> Result<string, Failure>,
    asString: seq<bv8> -> string)

  /** The store's contents when filling it ended, and what was thrown, if anything. */
  datatype Filled = Filled(entries: map<string, Value>, raised: Option<Failure>)

  const DefaultEncoding: string := "UTF-8"

  function TextArguments(m: map<string, string>): (r: map<string, Value>)
    ensures r.Keys == m.Keys
    ensures forall k :: k in m ==> r[k] == Text(m[k])
  {
    map k | k in m :: Text(m[k])
  }

  /** The content-type header value, "" when the header is absent. */
  function ContentTypeValue(e: Entity): (value: string)
  {
    if e.contentType.Some? then e.contentType.value else ""
  }

  /** The encoding a URL-encoded body is decoded with. */
  function EncodingOf(e: Entity): (encoding: string)
  {
    if e.contentEncoding.Some? then e.contentEncoding.value else DefaultEncoding
  }

  predicate IsMultipart(e: Entity)
  {
    Contains(ContentTypeValue(e), "multipart")
  }

  /** A form field is kept as text, any other part as its bytes. */
  function PartValue(p: Part, codec: Codec): (v: Value)
  {
    if p.isFormField then Text(codec.asString(p.content)) else Bytes(p.content)
  }

  /** The multipart loop: parts are put in stream order until the first failure. */
  function AbsorbParts(store: map<string, Value>, items: seq<Result<Part, Failure>>, codec: Codec): (f: Filled)
    decreases |items|
  {
    if |items| == 0 then Filled(store, None)
    else match items[0]
      case Err(x) => Filled(store, Some(x))
      case Ok(p) => AbsorbParts(store[p.fieldName := PartValue(p, codec)], items[1..], codec)
  }

  /** A URL-encoded body: read, decode as a whole, split into pairs, put all pairs. */
  function AbsorbUrlEncoded(store: map<string, Value>, e: Entity, codec: Codec): (f: Filled)
  {
    match e.text
    case Err(x) => Filled(store, Some(x))
    case Ok(t) =>
      match codec.urlDecode(t, EncodingOf(e))
      case Err(x) => Filled(store, Some(x))
      case Ok(decoded) =>
        match codec.contentsArguments(decoded)
        case Err(x) => Filled(store, Some(x))
        case Ok(pairs) => Filled(if pairs.Some? then store + TextArguments(pairs.value) else store, None)
  }

  /** What parsing the body does to a store. */
  function AbsorbBody(store: map<string, Value>, body: Body, codec: Codec): (f: Filled)
  {
    match body
    case NotEnclosing => Filled(store, None)
    case Enclosing(None) => Filled(store, None)
    case Enclosing(Some(e)) =>
      if IsMultipart(e) then AbsorbParts(store, e.items, codec) else AbsorbUrlEncoded(store, e, codec)
  }

  /** The URI's query arguments, as the store holds them before the body is read (none when parsing them throws). */
  function UriArguments(req: HttpRequest, codec: Codec): (m: map<string, Value>)
  {
    var parsed := codec.uriArguments(req.uri);
    if parsed.Ok? && parsed.value.Some? then TextArguments(parsed.value.value) else map[]
  }

  /** The arguments the body alone supplies, or the failure reading it raises. */
  function BodyArguments(body: Body, codec: Codec): (r: Result<map<string, Value>, Failure>)
  {
    var f := AbsorbBody(map[], body, codec);
    if f.raised.Some? then Err(f.raised.value) else Ok(f.entries)
  }

  /** The result of parsing a request's arguments: the filled map, or the failure. */
  function Arguments(req: HttpRequest, codec: Codec): (r: Result<map<string, Value>, Failure>)
  {
    if codec.uriArguments(req.uri).Err? then Err(codec.uriArguments(req.uri).error)
    else
      var f := AbsorbBody(UriArguments(req, codec), req.body, codec);
      if f.raised.Some? then Err(f.raised.value) else Ok(f.entries)
  }

  /** Putting parts into a store is the same as putting them into an empty map and laying that over the store. */
  lemma {:induction false} AbsorbPartsOverlays(store: map<string, Value>, items: seq<Result<Part, Failure>>, codec: Codec)
    ensures AbsorbParts(store, items, codec).raised == AbsorbParts(map[], items, codec).raised
    ensures AbsorbParts(store, items, codec).entries == store + AbsorbParts(map[], items, codec).entries
    decreases |items|
  {
    if |items| > 0 && items[0].Ok? {
      var p := items[0].value;
      var v := PartValue(p, codec);
      AbsorbPartsOverlays(store[p.fieldName := v], items[1..], codec);
      AbsorbPartsOverlays(map[p.fieldName := v], items[1..], codec);
      var rest := AbsorbParts(map[], items[1..], codec).entries;
      assert store[p.fieldName := v] + rest == store + (map[p.fieldName := v] + rest);
    }
  }

  /** The same for the whole body, whichever way it is parsed. */
  lemma AbsorbBodyOverlays(store: map<string, Value>, body: Body, codec: Codec)
    ensures AbsorbBody(store, body, codec).raised == AbsorbBody(map[], body, codec).raised
    ensures AbsorbBody(store, body, codec).entries == store + AbsorbBody(map[], body, codec).entries
  {
    if body.Enclosing? && body.entity.Some? && IsMultipart(body.entity.value) {
      AbsorbPartsOverlays(store, body.entity.value.items, codec);
    }
  }

  /**
   * The parsed arguments are the URI arguments overlaid with the body's own
   * arguments. A failure parsing the URI arguments is the parse's failure, and
   * the body is not read; otherwise a failure reading the body is.
   */
  lemma BodyOverlaysUri(req: HttpRequest, codec: Codec)
    ensures codec.uriArguments(req.uri).Err? ==> Arguments(req, codec) == Err(codec.uriArguments(req.uri).error)
    ensures codec.uriArguments(req.uri).Ok? && BodyArguments(req.body, codec).Err? ==>
      Arguments(req, codec) == Err(BodyArguments(req.body, codec).error)
    ensures codec.uriArguments(req.uri).Ok? && BodyArguments(req.body, codec).Ok? ==>
      Arguments(req, codec) == Ok(UriArguments(req, codec) + BodyArguments(req.body, codec).value)
  {
    AbsorbBodyOverlays(UriArguments(req, codec), req.body, codec);
  }

  /** On a name both supply, the body's value wins. */
  lemma BodyWins(req: HttpRequest, codec: Codec, k: string)
    requires Arguments(req, codec).Ok?
    requires BodyArguments(req.body, codec).Ok? && k in BodyArguments(req.body, codec).value
    ensures k in Arguments(req, codec).value
    ensures Arguments(req, codec).value[k] == BodyArguments(req.body, codec).value[k]
  {
    BodyOverlaysUri(req, codec);
  }

  /** A URI argument whose name the body does not supply is kept unchanged, as text. */
  lemma UriArgumentKept(req: HttpRequest, codec: Codec, k: string)
    requires Arguments(req, codec).Ok?
    requires codec.uriArguments(req.uri).Ok? && codec.uriArguments(req.uri).value.Some?
    requires k in codec.uriArguments(req.uri).value.value
    requires BodyArguments(req.body, codec).Ok? && k !in BodyArguments(req.body, codec).value
    ensures k in Arguments(req, codec).value
    ensures Arguments(req, codec).value[k] == Text(codec.uriArguments(req.uri).value.value[k])
  {
    BodyOverlaysUri(req, codec);
  }

  /** Every argument comes from the URI or the body: nothing is invented. */
  lemma ArgumentsFromUriOrBody(req: HttpRequest, codec: Codec, k: string)
    requires Arguments(req, codec).Ok? && k in Arguments(req, codec).value
    ensures BodyArguments(req.body, codec).Ok?
    ensures k in UriArguments(req, codec) || k in BodyArguments(req.body, codec).value
  {
    BodyOverlaysUri(req, codec);
  }

  /**
   * Without an entity the arguments are exactly the URI's, and a null URI map
   * gives none; only parsing the URI arguments can then fail.
   */
  lemma NoEntityGivesUriArguments(req: HttpRequest, codec: Codec)
    requires req.body.NotEnclosing? || req.body.entity.None?
    ensures codec.uriArguments(req.uri).Err? ==> Arguments(req, codec) == Err(codec.uriArguments(req.uri).error)
    ensures codec.uriArguments(req.uri).Ok? ==> Arguments(req, codec) == Ok(UriArguments(req, codec))
    ensures codec.uriArguments(req.uri) == Ok(None) ==> Arguments(req, codec) == Ok(map[])
  {
  }

  /**
   * A body whose content type does not contain "multipart" is read as text,
   * decoded as a whole with the Content-Encoding value (UTF-8 when absent), and
   * only then split into pairs; a failure at any step is the parse's failure.
   * (This is once the URI arguments are parsed; see `BodyOverlaysUri`.)
   */
  lemma UrlEncodedBodyDecodedWhole(req: HttpRequest, codec: Codec)
    requires req.body.Enclosing? && req.body.entity.Some?
    requires !Contains(ContentTypeValue(req.body.entity.value), "multipart")
    ensures codec.uriArguments(req.uri).Ok? ==>
      var e := req.body.entity.value;
      var enc := if e.contentEncoding.Some? then e.contentEncoding.value else "UTF-8";
      match e.text
      case Err(f) => Arguments(req, codec) == Err(f)
      case Ok(t) =>
        match codec.urlDecode(t, enc)
        case Err(f) => Arguments(req, codec) == Err(f)
        case Ok(d) =>
          match codec.contentsArguments(d)
          case Err(f) => Arguments(req, codec) == Err(f)
          case Ok(pairs) =>
            Arguments(req, codec) == Ok(UriArguments(req, codec) + (if pairs.Some? then TextArguments(pairs.value) else map[]))
  {
    BodyOverlaysUri(req, codec);
  }

  /**
   * A body whose content-type value contains "multipart" is read part by part
   * over the URI arguments; a missing content-type header reads as "" and so
   * never selects the multipart path.
   */
  lemma MultipartChosenByContentType(req: HttpRequest, codec: Codec)
    requires req.body.Enclosing? && req.body.entity.Some?
    ensures var e := req.body.entity.value;
      var f := AbsorbParts(UriArguments(req, codec), e.items, codec);
      codec.uriArguments(req.uri).Ok? && (exists i :: OccursAt(ContentTypeValue(e), "multipart", i)) ==>
        Arguments(req, codec) == (if f.raised.Some? then Err(f.raised.value) else Ok(f.entries))
    ensures req.body.entity.value.contentType.None? ==> !IsMultipart(req.body.entity.value)
  {
  }

  /** Any failure among the parts of a multipart body is the parse's failure: no partial map comes back. */
  lemma {:induction false} MultipartFailureAborts(store: map<string, Value>, items: seq<Result<Part, Failure>>, codec: Codec, j: nat)
    requires j < |items| && items[j].Err?
    ensures AbsorbParts(store, items, codec).raised.Some?
    ensures (forall i :: 0 <= i < j ==> items[i].Ok?) ==> AbsorbParts(store, items, codec).raised == Some(items[j].error)
    decreases |items|
  {
    if j > 0 && items[0].Ok? {
      var p := items[0].value;
      MultipartFailureAborts(store[p.fieldName := PartValue(p, codec)], items[1..], codec, j - 1);
      if forall i :: 0 <= i < j ==> items[i].Ok? {
        assert forall i :: 0 <= i < j - 1 ==> items[1..][i].Ok? by {
          forall i | 0 <= i < j - 1 ensures items[1..][i].Ok? {
            assert items[1..][i] == items[i + 1];
          }
        }
      }
    }
  }

  /**
   * When every part is read, a part whose name no later part reuses is in the
   * result with its own value: a form field as text, a file as bytes.
   */
  lemma {:induction false} LastPartWins(store: map<string, Value>, items: seq<Result<Part, Failure>>, codec: Codec, j: nat)
    requires forall i :: 0 <= i < |items| ==> items[i].Ok?
    requires j < |items|
    requires forall i :: j < i < |items| ==> items[i].value.fieldName != items[j].value.fieldName
    ensures AbsorbParts(store, items, codec).raised.None?
    ensures var p := items[j].value;
      && p.fieldName in AbsorbParts(store, items, codec).entries
      && AbsorbParts(store, items, codec).entries[p.fieldName]
         == (if p.isFormField then Text(codec.asString(p.content)) else Bytes(p.content))
    decreases |items|
  {
    var p := items[0].value;
    var next := store[p.fieldName := PartValue(p, codec)];
    if j == 0 {
      AbsorbPartsOverlays(next, items[1..], codec);
      assert forall i :: 0 <= i < |items| - 1 ==> items[1..][i].Ok? && items[1..][i].value.fieldName != p.fieldName by {
        forall i | 0 <= i < |items| - 1
          ensures items[1..][i].Ok? && items[1..][i].value.fieldName != p.fieldName
        {
          assert items[1..][i] == items[i + 1];
        }
      }
      AbsorbedNamesCome(items[1..], codec, p.fieldName);
    } else {
      assert forall i :: 0 <= i < |items| - 1 ==> items[1..][i] == items[i + 1];
      LastPartWins(next, items[1..], codec, j - 1);
    }
  }

  /** Reading parts into an empty map only creates the names the parts carry. */
  lemma {:induction false} AbsorbedNamesCome(items: seq<Result<Part, Failure>>, codec: Codec, k: string)
    requires forall i :: 0 <= i < |items| ==> items[i].Ok? && items[i].value.fieldName != k
    ensures AbsorbParts(map[], items, codec).raised.None?
    ensures k !in AbsorbParts(map[], items, codec).entries
    decreases |items|
  {
    if |items| > 0 {
      var p := items[0].value;
      AbsorbPartsOverlays(map[p.fieldName := PartValue(p, codec)], items[1..], codec);
      assert forall i :: 0 <= i < |items| - 1 ==> items[1..][i] == items[i + 1];
      AbsorbedNamesCome(items[1..], codec, k);
    }
  }

  /** The map the parser fills in place; putting a name again replaces its value. */
  class ArgumentStore {
    var entries: map<string, Value>

    constructor ()
      ensures entries == map[]
    {
      entries := map[];
    }

    method Put(name: string, value: Value)
      modifies this
      ensures entries == old(entries)[name := value]
    {
      entries := entries[name := value];
    }

    method PutAll(m: map<string, string>)
      modifies this
      ensures entries == old(entries) + TextArguments(m)
    {
      entries := entries + TextArguments(m);
    }
  }

  /** Builds the argument map of a request: URI arguments first, then the body's. */
  method ParseArguments(req: HttpRequest, codec: Codec) returns (r: Result<map<string, Value>, Failure>)
    ensures r == Arguments(req, codec)
  {
    var store := new ArgumentStore();
    var uriArguments := codec.uriArguments(req.uri);
    if uriArguments.Err? {
      return Err(uriArguments.error);
    }
    if uriArguments.value.Some? {
      store.PutAll(uriArguments.value.value);
      assert map[] + TextArguments(uriArguments.value.value) == TextArguments(uriArguments.value.value);
    }
    var raised := ParseBody(req, store, codec);
    if raised.Some? {
      r := Err(raised.value);
    } else {
      r := Ok(store.entries);
    }
  }

  /** Puts the body's arguments into the store; a request without an entity adds nothing. */
  method ParseBody(req: HttpRequest, store: ArgumentStore, codec: Codec) returns (raised: Option<Failure>)
    modifies store
    ensures Filled(store.entries, raised) == AbsorbBody(old(store.entries), req.body, codec)
  {
    raised := None;
    if req.body.NotEnclosing? {
      return;
    }
    if req.body.entity.None? {
      return;
    }
    var e := req.body.entity.value;
    var contentType := if e.contentType.Some? then e.contentType.value else "";
    if Contains(contentType, "multipart") {
      raised := ParseMultipartBody(e.items, store, codec);
    } else {
      match e.text {
        case Err(f) =>
          raised := Some(f);
        case Ok(contents) =>
          var encoding := if e.contentEncoding.Some? then e.contentEncoding.value else DefaultEncoding;
          var decoded := codec.urlDecode(contents, encoding);
          match decoded {
            case Err(f) =>
              raised := Some(f);
            case Ok(d) =>
              var pairs := codec.contentsArguments(d);
              if pairs.Err? {
                raised := Some(pairs.error);
              } else if pairs.value.Some? {
                store.PutAll(pairs.value.value);
              }
          }
      }
    }
  }

  /** Walks the multipart stream, putting each part under its field name. */
  method ParseMultipartBody(items: seq<Result<Part, Failure>>, store: ArgumentStore, codec: Codec)
    returns (raised: Option<Failure>)
    modifies store
    ensures Filled(store.entries, raised) == AbsorbParts(old(store.entries), items, codec)
  {
    raised := None;
    var i := 0;
    while i < |items|
      invariant 0 <= i <= |items|
      invariant AbsorbParts(old(store.entries), items, codec) == AbsorbParts(store.entries, items[i..], codec)
    {
      assert items[i..][0] == items[i];
      match items[i] {
        case Err(f) =>
          raised := Some(f);
          return;
        case Ok(part) =>
          if part.isFormField {
            store.Put(part.fieldName, Text(codec.asString(part.content)));
          } else {
            store.Put(part.fieldName, Bytes(part.content));
          }
          assert items[i..][1..] == items[i + 1..];
          i := i + 1;
      }
    }
  }
}
