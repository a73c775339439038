/** The payload codec: a response body decoded as XML (SimpleXML) or JSON,
    the rule that picks the decoder from the request URL, the rule that picks
    it from the first byte of a cached text, and the re-encoding written to
    the cache. The parsers and encoders themselves are library code and are
    parameters here (a `Codec`). */
module Payloads {
  import opened Results
  import opened Text

  /** A decoded document: an XML element, or a JSON value whose object
      members appear as named children. */
  datatype Tree = Tree(name: string, text: string, children: seq<Tree>)

  datatype Decoder = XmlDecoder | JsonDecoder

  /** A decoded payload; the tag records which decoder produced it
      (a SimpleXMLElement or a json_decode value). */
  datatype Payload = Payload(decoder: Decoder, tree: Tree)

  /** The library parsers and encoders the client calls:
      `simplexml_load_string`, `json_decode` (None when they fail),
      `asXml`, `json_encode`, and PHP's `empty()` on a decoded value. */
  datatype Codec = Codec(
    parseXml: string -> Option<Tree>,
    parseJson: string -> Option<Tree>,
    asXml: Tree -> string,
    jsonEncode: Tree -> string,
    isEmpty: Payload -> bool)

  predicate StartsWithAngle(text: string) {
    |text| > 0 && text[0] == '<'
  }

  /** What a lawful codec promises: XML text starts with '<', JSON text does
      not, and a non-empty decoded payload survives encoding and decoding. */
  ghost predicate Lawful(codec: Codec) {
    && (forall t :: StartsWithAngle(codec.asXml(t)))
    && (forall t :: !StartsWithAngle(codec.jsonEncode(t)))
    && (forall t :: !codec.isEmpty(Payload(XmlDecoder, t)) ==> codec.parseXml(codec.asXml(t)) == Some(t))
    && (forall t :: !codec.isEmpty(Payload(JsonDecoder, t)) ==> codec.parseJson(codec.jsonEncode(t)) == Some(t))
  }

  function Parse(codec: Codec, d: Decoder, text: string): Option<Tree> {
    match d
    case XmlDecoder => codec.parseXml(text)
    case JsonDecoder => codec.parseJson(text)
  }

  /** The decoder for a response: JSON when `strpos($url, 'json')` is
      truthy, XML otherwise. */
  function DecoderFor(url: string): (d: Decoder)
    ensures d == JsonDecoder <==> Contains(url, "json") && !OccursAt(url, "json", 0)
  {
    StrposTruthyMeaning(url, "json");
    if StrposTruthy(url, "json") then JsonDecoder else XmlDecoder
  }

  /** Decodes a response body and rejects a failed or empty decode with
      'Invalid server response'. */
  function DecodeBody(codec: Codec, d: Decoder, body: string): (r: Result<Payload, TwitterError>)
    ensures r.Ok? <==> Parse(codec, d, body).Some? && !codec.isEmpty(Payload(d, Parse(codec, d, body).value))
    ensures r.Ok? ==> r.value == Payload(d, Parse(codec, d, body).value)
    ensures r.Err? ==> r.error == InvalidServerResponse
  {
    match Parse(codec, d, body)
    case None => Err(InvalidServerResponse)
    case Some(t) => if codec.isEmpty(Payload(d, t)) then Err(InvalidServerResponse) else Ok(Payload(d, t))
  }

  /** The decoder for a cached text: XML when it starts with '<'
      (`strncmp($cache, '<', 1)` is 0), JSON otherwise, the empty text
      included. */
  function StoredDecoder(text: string): (d: Decoder)
    ensures d == XmlDecoder <==> |text| > 0 && text[0] == '<'
  {
    if StartsWithAngle(text) then XmlDecoder else JsonDecoder
  }

  /** The text written to the cache: `asXml()` for a SimpleXMLElement,
      `json_encode` for anything else. */
  function Encode(codec: Codec, p: Payload): (text: string)
    // under a lawful codec the first-byte rule recovers the decoder
    ensures Lawful(codec) ==> StoredDecoder(text) == p.decoder
  {
    match p.decoder
    case XmlDecoder => codec.asXml(p.tree)
    case JsonDecoder => codec.jsonEncode(p.tree)
  }

  /** Under a lawful codec, a non-empty payload written to the cache is read
      back, with the first-byte rule, as the same payload. */
  lemma EncodeRoundTrip(codec: Codec, p: Payload)
    requires Lawful(codec) && !codec.isEmpty(p)
    ensures StoredDecoder(Encode(codec, p)) == p.decoder
    ensures Parse(codec, StoredDecoder(Encode(codec, p)), Encode(codec, p)) == Some(p.tree)
  {
    match p.decoder
    case XmlDecoder =>
      assert StartsWithAngle(codec.asXml(p.tree));
      assert p == Payload(XmlDecoder, p.tree);
    case JsonDecoder =>
      assert !StartsWithAngle(codec.jsonEncode(p.tree));
      assert p == Payload(JsonDecoder, p.tree);
  }

  /** `$payload->name`: the first child with that name, if any. */
  function Member(t: Tree, name: string): (r: Option<Tree>)
    ensures r.Some? ==> r.value in t.children && r.value.name == name
    ensures r.Some? ==> exists i :: 0 <= i < |t.children| && t.children[i] == r.value
                          && forall j :: 0 <= j < i ==> t.children[j].name != name
    ensures r.None? ==> forall c :: c in t.children ==> c.name != name
  {
    FirstNamed(t.children, name)
  }

  function FirstNamed(children: seq<Tree>, name: string): (r: Option<Tree>)
    ensures r.Some? ==> r.value in children && r.value.name == name
    ensures r.Some? ==> exists i :: 0 <= i < |children| && children[i] == r.value
                          && forall j :: 0 <= j < i ==> children[j].name != name
    ensures r.None? ==> forall c :: c in children ==> c.name != name
  {
    if |children| == 0 then None
    else if children[0].name == name then Some(children[0])
    else
      var rest := FirstNamed(children[1..], name);
      if rest.Some? then
        var i :| 0 <= i < |children[1..]| && children[1..][i] == rest.value
                 && forall j :: 0 <= j < i ==> children[1..][j].name != name;
        assert children[i + 1] == rest.value;
        assert forall j :: 0 <= j < i + 1 ==> children[j].name != name by {
          forall j | 0 <= j < i + 1 ensures children[j].name != name {
            if j > 0 { assert children[j] == children[1..][j - 1]; }
          }
        }
        rest
      else rest
  }

  /** `$xml->id ? (string) $xml->id : FALSE`: the text of the `id` member
      when the response has one. */
  function StatusId(p: Payload): (r: Option<string>)
    ensures r.Some? <==> Member(p.tree, "id").Some?
    ensures r.Some? ==> r.value == Member(p.tree, "id").value.text
  {
    match Member(p.tree, "id")
    case None => None
    case Some(id) => Some(id.text)
  }
}
