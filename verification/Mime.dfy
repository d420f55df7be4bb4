/** Encrypting a message for import (message_encrypt.go) and the server's
    split of what arrives into bodies and attachments (server/messages.go). */
module Mime {
  import opened Ids

  type Data = string

  datatype MediaType = MediaType(main: string, sub: string, charset: Option<string>)

  datatype Disposition = Absent | Readable | Unreadable

  /** The header fields the code looks at, and the others by name; `mediaType`
      is None when the content type cannot be read, `readable` says whether the
      header parses. */
  datatype Header = Header(
    readable: bool, mediaType: Option<MediaType>, disposition: Disposition, encoding: Option<string>,
    fields: map<string, string>)

  /** A parsed message section: leaves have a body, multiparts children. */
  datatype Section = Section(header: Header, body: Data, children: seq<Section>)

  /** The foreign codecs: OpenPGP encryption and its armor, base64, transfer
      decoding and charset conversion. */
  datatype Codec = Codec(
    encrypt: Data -> Data, decrypt: Data -> Option<Data>,
    armor: Data -> Data, unarmor: Data -> Option<Data>,
    base64: Data -> Data, unbase64: Data -> Option<Data>,
    transfer: (Option<string>, Data) -> Option<Data>,
    toUtf8: (string, Data) -> Option<Data>)

  /** Opening undoes sealing. */
  ghost predicate Lawful(c: Codec) {
    && (forall d :: c.decrypt(c.encrypt(d)) == Some(d))
    && (forall d :: c.unarmor(c.armor(d)) == Some(d))
    && (forall d :: c.unbase64(c.base64(d)) == Some(d))
  }

  predicate IsMultipart(s: Section) { s.header.mediaType.Some? && s.header.mediaType.value.main == "multipart" }

  predicate IsText(s: Section) { s.header.mediaType.Some? && s.header.mediaType.value.main == "text" }

  predicate IsMessage(s: Section) { s.header.mediaType.Some? && s.header.mediaType.value.main == "message" }

  // ---------------------------------------------------------------------
  // tryEncrypt: the walk that decides, then the section-wise encryption

  /** One visit of the walk; `count` text parts were seen before. */
  function Visit(s: Section, count: nat): Result<nat> {
    if s.header.mediaType.None? || !s.header.readable || s.header.disposition.Unreadable? then Err
    else if s.header.mediaType.value.sub == "encrypted" || s.header.mediaType.value.sub == "signed" then Err
    else if !IsText(s) then Ok(count)
    else if count >= 1 then Err
    else Ok(count + 1)
  }

  function Walk(s: Section, count: nat): Result<nat>
    decreases s, 1
  {
    match Visit(s, count)
    case Err => Err
    case Ok(n) => if IsMultipart(s) then WalkAll(s.children, n) else Ok(n)
  }

  function WalkAll(kids: seq<Section>, count: nat): Result<nat>
    decreases kids, 0
  {
    if kids == [] then Ok(count)
    else match WalkAll(kids[..|kids| - 1], count)
      case Err => Err
      case Ok(n) => Walk(kids[|kids| - 1], n)
  }

  /** The content of a leaf: transfer encoding undone and, for text and
      embedded messages, converted to UTF-8. */
  function Plain(c: Codec, s: Section): Option<Data> {
    match c.transfer(s.header.encoding, s.body)
    case None => None
    case Some(d) =>
      if (IsText(s) || IsMessage(s)) && s.header.mediaType.value.charset.Some?
      then c.toUtf8(s.header.mediaType.value.charset.value, d)
      else Some(d)
  }

  function EncryptText(c: Codec, s: Section): Result<Section>
    requires s.header.mediaType.Some?
  {
    if !s.header.readable then Err
    else match Plain(c, s)
      case None => Err
      case Some(d) =>
        var mt := s.header.mediaType.value;
        var mt' := if mt.charset.Some? then mt.(charset := Some("utf-8")) else mt;
        Ok(Section(s.header.(encoding := None, mediaType := Some(mt')), c.armor(c.encrypt(d)), []))
  }

  function EncryptAtt(c: Codec, s: Section): Result<Section> {
    if !s.header.readable then Err
    else match c.transfer(s.header.encoding, s.body)
      case None => Err
      case Some(d) => Ok(Section(s.header.(encoding := Some("base64")), c.base64(c.encrypt(d)), []))
  }

  function Encrypt(c: Codec, s: Section): Result<Section>
    decreases s, 1
  {
    if s.header.mediaType.None? then Err
    else if IsMultipart(s) then
      match EncryptAll(c, s.children)
      case Err => Err
      case Ok(kids) => Ok(Section(s.header, "", kids))
    else if IsText(s) || IsMessage(s) then EncryptText(c, s)
    else EncryptAtt(c, s)
  }

  function EncryptAll(c: Codec, kids: seq<Section>): (res: Result<seq<Section>>)
    ensures res.Ok? ==> |res.value| == |kids|
    decreases kids, 0
  {
    if kids == [] then Ok([])
    else match EncryptAll(c, kids[..|kids| - 1])
      case Err => Err
      case Ok(done) =>
        match Encrypt(c, kids[|kids| - 1])
        case Err => Err
        case Ok(last) => Ok(done + [last])
  }

  /** encryptMultipart writes the parts one after the other. */
  method EncryptSection(c: Codec, s: Section) returns (res: Result<Section>)
    ensures res == Encrypt(c, s)
    decreases s
  {
    if s.header.mediaType.None? {
      return Err;
    }
    if IsMultipart(s) {
      var written := [];
      for k := 0 to |s.children|
        invariant EncryptAll(c, s.children[..k]) == Ok(written)
      {
        assert s.children[..k + 1][..k] == s.children[..k];
        var part := EncryptSection(c, s.children[k]);
        if part.Err? {
          EncryptAllFails(c, s.children, k + 1);
          return Err;
        }
        written := written + [part.value];
      }
      assert s.children[..|s.children|] == s.children;
      return Ok(Section(s.header, "", written));
    }
    res := if IsText(s) || IsMessage(s) then EncryptText(c, s) else EncryptAtt(c, s);
  }

  lemma {:induction false} EncryptAllFails(c: Codec, kids: seq<Section>, n: nat)
    requires n <= |kids| && EncryptAll(c, kids[..n]) == Err
    ensures EncryptAll(c, kids) == Err
  {
    if n == |kids| {
      assert kids[..n] == kids;
    } else {
      assert kids[..|kids| - 1][..n] == kids[..n];
      EncryptAllFails(c, kids[..|kids| - 1], n);
    }
  }

  function TryEncrypt(c: Codec, s: Section): Result<Section> {
    if Walk(s, 0).Err? then Err else Encrypt(c, s)
  }

  /** The fields of the message that its encrypted form shows. */
  const OPEN_FIELDS := {"Message-Id", "From", "To", "Subject", "Date", "Received", "Cc"}

  function OpenFields(fields: map<string, string>): map<string, string> {
    (map k | k in fields && k in OPEN_FIELDS :: fields[k])["Mime-version" := "1.0"]
  }

  /** PGP/MIME (section 4 of RFC 3156): a control part and the whole message. */
  function EncryptFull(c: Codec, literal: Data, root: Section): Result<Section> {
    if !root.header.readable then Err
    else Ok(Section(
      Header(true, Some(MediaType("multipart", "encrypted", None)), Absent, None, OpenFields(root.header.fields)), "",
      [Section(Header(true, Some(MediaType("application", "pgp-encrypted", None)), Absent, None,
                      map["Content-Description" := "PGP/MIME version identification"]), "Version: 1", []),
       Section(Header(true, Some(MediaType("application", "octet-stream", None)), Readable, None,
                      map["Content-Description" := "OpenPGP encrypted message"]), c.armor(c.encrypt(literal)), [])]))
  }

  /** EncryptRFC822 on a message and its parse. */
  function EncryptRFC822(c: Codec, literal: Data, root: Section): Result<Section> {
    match TryEncrypt(c, root)
    case Ok(t) => Ok(t)
    case Err => EncryptFull(c, literal, root)
  }

  // ---------------------------------------------------------------------
  // The server's split

  datatype Collected = Collected(bodies: seq<Data>, atts: seq<Section>)

  function Collect(s: Section): Result<Collected>
    decreases s, 1
  {
    if s.header.mediaType.None? then Err
    else if IsText(s) then Ok(Collected([s.body], []))
    else if !IsMultipart(s) then Ok(Collected([], [s]))
    else if s.header.mediaType.value.sub == "encrypted" then
      if |s.children| != 2 then Err else Ok(Collected([s.children[1].body], []))
    else CollectAll(s.children)
  }

  function CollectAll(kids: seq<Section>): Result<Collected>
    decreases kids, 0
  {
    if kids == [] then Ok(Collected([], []))
    else match CollectAll(kids[..|kids| - 1])
      case Err => Err
      case Ok(done) =>
        match Collect(kids[|kids| - 1])
        case Err => Err
        case Ok(last) => Ok(Collected(done.bodies + last.bodies, done.atts + last.atts))
  }

  /** `collect` with its two growing lists. */
  method CollectSection(s: Section) returns (res: Result<Collected>)
    ensures res == Collect(s)
    decreases s
  {
    if s.header.mediaType.None? {
      return Err;
    }
    if IsText(s) {
      return Ok(Collected([s.body], []));
    }
    if !IsMultipart(s) {
      return Ok(Collected([], [s]));
    }
    if s.header.mediaType.value.sub == "encrypted" {
      return if |s.children| != 2 then Err else Ok(Collected([s.children[1].body], []));
    }
    var multiBody, multiAtts := [], [];
    for k := 0 to |s.children|
      invariant CollectAll(s.children[..k]) == Ok(Collected(multiBody, multiAtts))
    {
      assert s.children[..k + 1][..k] == s.children[..k];
      var child := CollectSection(s.children[k]);
      if child.Err? {
        CollectAllFails(s.children, k + 1);
        return Err;
      }
      multiBody, multiAtts := multiBody + child.value.bodies, multiAtts + child.value.atts;
    }
    assert s.children[..|s.children|] == s.children;
    res := Ok(Collected(multiBody, multiAtts));
  }

  lemma {:induction false} CollectAllFails(kids: seq<Section>, n: nat)
    requires n <= |kids| && CollectAll(kids[..n]) == Err
    ensures CollectAll(kids) == Err
  {
    if n == |kids| {
      assert kids[..n] == kids;
    } else {
      assert kids[..|kids| - 1][..n] == kids[..n];
      CollectAllFails(kids[..|kids| - 1], n);
    }
  }

  /** Reading a stored body back: unarmor and decrypt. */
  function OpenBody(c: Codec, body: Data): Option<Data> {
    match c.unarmor(body)
    case None => None
    case Some(sealed) => c.decrypt(sealed)
  }

  /** importAttachment accepts base64 or armor; the client then decrypts. */
  function OpenAttachment(c: Codec, s: Section): Option<Data> {
    if s.header.encoding == Some("base64") then
      match c.unbase64(s.body)
      case None => None
      case Some(sealed) => c.decrypt(sealed)
    else OpenBody(c, s.body)
  }

  // ---------------------------------------------------------------------
  // Encryption commutes with the split

  /** The text leaves of a section in the order of its parts. */
  function Texts(s: Section): seq<Section>
    decreases s, 1
  {
    if IsText(s) then [s] else if IsMultipart(s) then TextsOf(s.children) else []
  }

  function TextsOf(kids: seq<Section>): seq<Section>
    decreases kids, 0
  {
    if kids == [] then [] else TextsOf(kids[..|kids| - 1]) + Texts(kids[|kids| - 1])
  }

  /** `got` is what the split finds after encryption: in order, it opens to the
      plain texts of `texts` and the plain contents of `atts`. */
  ghost predicate OpensTo(c: Codec, got: Collected, texts: seq<Section>, atts: seq<Section>) {
    && |got.bodies| == |texts| && |got.atts| == |atts|
    && (forall i | 0 <= i < |texts| :: Plain(c, texts[i]).Some? && OpenBody(c, got.bodies[i]) == Plain(c, texts[i]))
    && (forall i | 0 <= i < |atts| :: Plain(c, atts[i]).Some? && OpenAttachment(c, got.atts[i]) == Plain(c, atts[i]))
  }

  /** A section the walk does not refuse by itself. */
  predicate Acceptable(s: Section) {
    && s.header.readable && s.header.mediaType.Some? && !s.header.disposition.Unreadable?
    && s.header.mediaType.value.sub != "encrypted" && s.header.mediaType.value.sub != "signed"
  }

  /** Every section of the tree is acceptable. */
  predicate AllAcceptable(s: Section)
    decreases s, 1
  {
    Acceptable(s) && (IsMultipart(s) ==> EachAcceptable(s.children))
  }

  predicate EachAcceptable(kids: seq<Section>)
    decreases kids, 0
  {
    kids == [] || (EachAcceptable(kids[..|kids| - 1]) && AllAcceptable(kids[|kids| - 1]))
  }

  /** Every leaf of the tree can be decoded. */
  predicate AllDecode(c: Codec, s: Section)
    decreases s, 1
  {
    if IsMultipart(s) then EachDecodes(c, s.children) else Plain(c, s).Some?
  }

  predicate EachDecodes(c: Codec, kids: seq<Section>)
    decreases kids, 0
  {
    kids == [] || (EachDecodes(c, kids[..|kids| - 1]) && AllDecode(c, kids[|kids| - 1]))
  }

  /** The walk accepts exactly the trees of acceptable sections with no more
      than one text part, those seen before included; it counts them. */
  lemma {:induction false} WalkCountsTexts(s: Section, count: nat)
    ensures Walk(s, count).Ok? <==> AllAcceptable(s) && (Texts(s) == [] || count + |Texts(s)| <= 1)
    ensures Walk(s, count).Ok? ==> Walk(s, count).value == count + |Texts(s)|
    decreases s, 1
  {
    if IsMultipart(s) {
      WalkAllCountsTexts(s.children, count);
    }
  }

  lemma {:induction false} WalkAllCountsTexts(kids: seq<Section>, count: nat)
    ensures WalkAll(kids, count).Ok? <==> EachAcceptable(kids) && (TextsOf(kids) == [] || count + |TextsOf(kids)| <= 1)
    ensures WalkAll(kids, count).Ok? ==> WalkAll(kids, count).value == count + |TextsOf(kids)|
    decreases kids, 0
  {
    if kids != [] {
      var most, last := kids[..|kids| - 1], kids[|kids| - 1];
      WalkAllCountsTexts(most, count);
      if WalkAll(most, count).Ok? {
        WalkCountsTexts(last, count + |TextsOf(most)|);
      }
    }
  }

  lemma {:induction false} EncryptNeedsPlain(c: Codec, s: Section)
    requires AllAcceptable(s)
    ensures Encrypt(c, s).Ok? <==> AllDecode(c, s)
    decreases s, 1
  {
    if IsMultipart(s) {
      EncryptAllNeedsPlain(c, s.children);
    }
  }

  lemma {:induction false} EncryptAllNeedsPlain(c: Codec, kids: seq<Section>)
    requires EachAcceptable(kids)
    ensures EncryptAll(c, kids).Ok? <==> EachDecodes(c, kids)
    decreases kids, 0
  {
    if kids != [] {
      EncryptAllNeedsPlain(c, kids[..|kids| - 1]);
      EncryptNeedsPlain(c, kids[|kids| - 1]);
    }
  }

  /** The trees that are encrypted part by part: every section is acceptable,
      at most one is text, and every leaf can be decoded. */
  predicate Partwise(c: Codec, root: Section) {
    AllAcceptable(root) && |Texts(root)| <= 1 && AllDecode(c, root)
  }

  lemma TryEncryptAccepts(c: Codec, root: Section)
    ensures TryEncrypt(c, root).Ok? <==> Partwise(c, root)
  {
    WalkCountsTexts(root, 0);
    if AllAcceptable(root) {
      EncryptNeedsPlain(c, root);
    }
  }

  lemma {:induction false} EncryptCommutes(c: Codec, s: Section, count: nat)
    requires Lawful(c) && Walk(s, count).Ok? && Encrypt(c, s).Ok?
    ensures Collect(s).Ok? && Collect(Encrypt(c, s).value).Ok?
    ensures OpensTo(c, Collect(Encrypt(c, s).value).value, Texts(s), Collect(s).value.atts)
    decreases s, 1
  {
    var t := Encrypt(c, s).value;
    if IsMultipart(s) {
      EncryptAllCommutes(c, s.children, count);
      assert t.children == EncryptAll(c, s.children).value;
    } else if IsText(s) {
      assert IsText(t);
    } else {
      assert Collect(t) == Ok(Collected([], [t]));
    }
  }

  lemma {:induction false} EncryptAllCommutes(c: Codec, kids: seq<Section>, count: nat)
    requires Lawful(c) && WalkAll(kids, count).Ok? && EncryptAll(c, kids).Ok?
    ensures CollectAll(kids).Ok? && CollectAll(EncryptAll(c, kids).value).Ok?
    ensures OpensTo(c, CollectAll(EncryptAll(c, kids).value).value, TextsOf(kids), CollectAll(kids).value.atts)
    decreases kids, 0
  {
    if kids != [] {
      var n := |kids| - 1;
      EncryptAllCommutes(c, kids[..n], count);
      EncryptCommutes(c, kids[n], WalkAll(kids[..n], count).value);
      var done, out := EncryptAll(c, kids[..n]).value, EncryptAll(c, kids).value;
      assert out[..n] == done && out[n] == Encrypt(c, kids[n]).value;
      hide Lawful, Encrypt, Walk, Texts, Collect, OpensTo;
      OpensToConcat(c, CollectAll(done).value, Collect(out[n]).value, TextsOf(kids[..n]), Texts(kids[n]),
                    CollectAll(kids[..n]).value.atts, Collect(kids[n]).value.atts);
    }
  }

  lemma OpensToConcat(c: Codec, got: Collected, more: Collected, texts: seq<Section>, texts': seq<Section>, atts: seq<Section>, atts': seq<Section>)
    requires OpensTo(c, got, texts, atts) && OpensTo(c, more, texts', atts')
    ensures OpensTo(c, Collected(got.bodies + more.bodies, got.atts + more.atts), texts + texts', atts + atts')
  {}

  /** When the message is encrypted part by part, the server finds, in order,
      bodies and attachments that open to the decoded originals, and at most one body. */
  lemma PartwiseImport(c: Codec, root: Section)
    requires Lawful(c) && TryEncrypt(c, root).Ok?
    ensures var t := TryEncrypt(c, root).value;
      && Collect(t).Ok? && Collect(root).Ok?
      && OpensTo(c, Collect(t).value, Texts(root), Collect(root).value.atts)
      && |Collect(t).value.bodies| <= 1
  {
    EncryptCommutes(c, root, 0);
    WalkCountsTexts(root, 0);
  }

  // ---------------------------------------------------------------------
  // What the encrypted tree looks like

  /** The header of a text or embedded message after encryption: the body is
      armored UTF-8, so it has no transfer encoding and announces UTF-8 exactly
      where it announced a charset. */
  ghost predicate TextHeader(h: Header, h': Header) {
    && h.mediaType.Some? && h'.mediaType.Some?
    && h'.mediaType.value.main == h.mediaType.value.main && h'.mediaType.value.sub == h.mediaType.value.sub
    && (h.mediaType.value.charset.None? ==> h'.mediaType.value.charset == None)
    && (h.mediaType.value.charset.Some? ==> h'.mediaType.value.charset == Some("utf-8"))
    && h'.encoding == None && h'.readable && h'.disposition == h.disposition && h'.fields == h.fields
  }

  /** The header of any other leaf: only the transfer encoding is new. */
  ghost predicate BinaryHeader(h: Header, h': Header) {
    && h'.encoding == Some("base64")
    && h'.mediaType == h.mediaType && h'.readable && h'.disposition == h.disposition && h'.fields == h.fields
  }

  /** The encrypted tree has the sections of the original in their places:
      multiparts as they were, leaves with their headers and with bodies that
      open to their contents. */
  ghost predicate Mirrors(c: Codec, s: Section, t: Section)
    decreases s
  {
    if IsMultipart(s) then
      && t.header == s.header && t.body == "" && |t.children| == |s.children|
      && forall i | 0 <= i < |s.children| :: Mirrors(c, s.children[i], t.children[i])
    else
      && t.children == [] && Plain(c, s).Some?
      && if IsText(s) || IsMessage(s) then TextHeader(s.header, t.header) && OpenBody(c, t.body) == Plain(c, s)
         else BinaryHeader(s.header, t.header) && OpenAttachment(c, t) == Plain(c, s)
  }

  lemma {:induction false} EncryptMirrors(c: Codec, s: Section)
    requires Lawful(c) && Encrypt(c, s).Ok?
    ensures Mirrors(c, s, Encrypt(c, s).value)
    decreases s, 1
  {
    if IsMultipart(s) {
      EncryptAllMirrors(c, s.children);
    }
  }

  lemma {:induction false} EncryptAllMirrors(c: Codec, kids: seq<Section>)
    requires Lawful(c) && EncryptAll(c, kids).Ok?
    ensures forall i | 0 <= i < |kids| :: Mirrors(c, kids[i], EncryptAll(c, kids).value[i])
    decreases kids, 0
  {
    if kids != [] {
      var n := |kids| - 1;
      EncryptAllMirrors(c, kids[..n]);
      EncryptMirrors(c, kids[n]);
      hide Mirrors, Lawful, Encrypt;
      var out := EncryptAll(c, kids).value;
      forall i | 0 <= i < |kids| ensures Mirrors(c, kids[i], out[i]) {
        assert i < n ==> kids[i] == kids[..n][i] && out[i] == EncryptAll(c, kids[..n]).value[i];
      }
    }
  }

  /** Encrypted part by part, a message mirrors the original. */
  lemma PartwiseMirrors(c: Codec, root: Section)
    requires Lawful(c) && TryEncrypt(c, root).Ok?
    ensures Mirrors(c, root, TryEncrypt(c, root).value)
  {
    EncryptMirrors(c, root);
  }

  /** Encrypted as a whole, it is the control part and the armored message
      (section 4 of RFC 3156), under those of its fields that stay open. */
  lemma WholeShape(c: Codec, literal: Data, root: Section)
    requires Lawful(c) && EncryptFull(c, literal, root).Ok?
    ensures var t := EncryptFull(c, literal, root).value;
      && t.header.mediaType == Some(MediaType("multipart", "encrypted", None)) && |t.children| == 2
      && t.children[0].header.mediaType == Some(MediaType("application", "pgp-encrypted", None))
      && t.children[0].body == "Version: 1" && t.children[0].children == []
      && t.children[1].header.mediaType == Some(MediaType("application", "octet-stream", None))
      && t.children[1].header.encoding == None && OpenBody(c, t.children[1].body) == Some(literal)
      && (forall k | k in {"Message-Id", "From", "To", "Subject", "Date", "Received", "Cc"} ::
            k in t.header.fields <==> k in root.header.fields)
      && (forall k | k in t.header.fields :: if k == "Mime-version" then t.header.fields[k] == "1.0"
            else k in root.header.fields && t.header.fields[k] == root.header.fields[k])
    ensures EncryptFull(c, literal, root).Ok? <==> root.header.readable
  {}

  // ---------------------------------------------------------------------
  // What the split finds

  /** A PGP/MIME message (section 4 of RFC 3156). */
  predicate IsSealed(s: Section) { IsMultipart(s) && s.header.mediaType.value.sub == "encrypted" }

  /** What the split does not take apart further, in the order of the parts. */
  function Units(s: Section): seq<Section>
    decreases s, 1
  {
    if IsMultipart(s) && !IsSealed(s) then UnitsOf(s.children) else [s]
  }

  function UnitsOf(kids: seq<Section>): seq<Section>
    decreases kids, 0
  {
    if kids == [] then [] else UnitsOf(kids[..|kids| - 1]) + Units(kids[|kids| - 1])
  }

  /** Every content type can be read, and sealed messages have two parts. */
  ghost predicate Splittable(s: Section)
    decreases s
  {
    && s.header.mediaType.Some? && (IsSealed(s) ==> |s.children| == 2)
    && (IsMultipart(s) && !IsSealed(s) ==> forall i | 0 <= i < |s.children| :: Splittable(s.children[i]))
  }

  /** The body of a unit that is one. */
  function BodyOf(unit: Section): Option<Data> {
    if IsText(unit) then Some(unit.body)
    else if IsSealed(unit) && |unit.children| == 2 then Some(unit.children[1].body)
    else None
  }

  /** The bodies of the units that are bodies, and the other units, in order. */
  ghost predicate SharesOut(units: seq<Section>, bodies: seq<Data>, atts: seq<Section>) {
    if units == [] then bodies == [] && atts == []
    else
      match BodyOf(units[0])
      case Some(body) => bodies != [] && bodies[0] == body && SharesOut(units[1..], bodies[1..], atts)
      case None => atts != [] && atts[0] == units[0] && SharesOut(units[1..], bodies, atts[1..])
  }

  lemma {:induction false} SharesOutConcat(a: seq<Section>, b: seq<Section>, x: seq<Data>, y: seq<Data>, p: seq<Section>, q: seq<Section>)
    requires SharesOut(a, x, p) && SharesOut(b, y, q)
    ensures SharesOut(a + b, x + y, p + q)
  {
    if a == [] {
      assert a + b == b && x + y == y && p + q == q;
    } else {
      assert (a + b)[1..] == a[1..] + b;
      if BodyOf(a[0]).Some? {
        SharesOutConcat(a[1..], b, x[1..], y, p, q);
        assert (x + y)[1..] == x[1..] + y;
      } else {
        SharesOutConcat(a[1..], b, x, y, p[1..], q);
        assert (p + q)[1..] == p[1..] + q;
      }
    }
  }

  /** The split accepts exactly the splittable trees, and shares their units out. */
  lemma {:induction false} CollectSharesOut(s: Section)
    ensures Collect(s).Ok? <==> Splittable(s)
    ensures Collect(s).Ok? ==> SharesOut(Units(s), Collect(s).value.bodies, Collect(s).value.atts)
    decreases s, 1
  {
    if IsMultipart(s) && !IsSealed(s) {
      CollectAllSharesOut(s.children);
    } else if Collect(s).Ok? {
      assert Units(s) == [s] && [s][1..] == [];
    }
  }

  lemma {:induction false} CollectAllSharesOut(kids: seq<Section>)
    ensures CollectAll(kids).Ok? <==> forall i | 0 <= i < |kids| :: Splittable(kids[i])
    ensures CollectAll(kids).Ok? ==> SharesOut(UnitsOf(kids), CollectAll(kids).value.bodies, CollectAll(kids).value.atts)
    decreases kids, 0
  {
    if kids != [] {
      var n := |kids| - 1;
      CollectAllSharesOut(kids[..n]);
      CollectSharesOut(kids[n]);
      hide Splittable, SharesOut, Collect;
      assert kids == kids[..n] + [kids[n]];
      if CollectAll(kids).Ok? {
        var done, last := CollectAll(kids[..n]).value, Collect(kids[n]).value;
        SharesOutConcat(UnitsOf(kids[..n]), Units(kids[n]), done.bodies, last.bodies, done.atts, last.atts);
      }
    }
  }

  /** Otherwise the server finds exactly one body, which opens to the whole message. */
  lemma WholeImport(c: Codec, literal: Data, root: Section)
    requires Lawful(c) && EncryptFull(c, literal, root).Ok?
    ensures var got := Collect(EncryptFull(c, literal, root).value);
      got.Ok? && |got.value.bodies| == 1 && got.value.atts == [] && OpenBody(c, got.value.bodies[0]) == Some(literal)
  {}

  /** importBody stores body[0]: it drops no body, and it has one to store
      unless the message has no text part, no section that is refused and no
      leaf that cannot be decoded. */
  lemma FirstBodyIsTheOnlyOne(c: Codec, literal: Data, root: Section)
    requires Lawful(c) && EncryptRFC822(c, literal, root).Ok?
    ensures var got := Collect(EncryptRFC822(c, literal, root).value);
      && got.Ok? && |got.value.bodies| <= 1
      && (got.value.bodies == [] <==> Texts(root) == [] && AllAcceptable(root) && AllDecode(c, root))
  {
    TryEncryptAccepts(c, root);
    if TryEncrypt(c, root).Ok? {
      PartwiseImport(c, root);
    } else {
      WholeImport(c, literal, root);
    }
  }

  /** So a message that is a single attachment arrives without any body. */
  lemma LoneAttachmentHasNoBody(c: Codec, literal: Data, sub: string, encoding: Option<string>, body: Data)
    requires Lawful(c) && sub != "encrypted" && sub != "signed" && c.transfer(encoding, body).Some?
    ensures var root := Section(Header(true, Some(MediaType("application", sub, None)), Absent, encoding, map[]), body, []);
      && EncryptRFC822(c, literal, root).Ok?
      && Collect(EncryptRFC822(c, literal, root).value).Ok?
      && Collect(EncryptRFC822(c, literal, root).value).value.bodies == []
  {
    var root := Section(Header(true, Some(MediaType("application", sub, None)), Absent, encoding, map[]), body, []);
    assert Texts(root) == [] && AllAcceptable(root) && AllDecode(c, root);
    TryEncryptAccepts(c, root);
    FirstBodyIsTheOnlyOne(c, literal, root);
  }
}
