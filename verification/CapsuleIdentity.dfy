/** The content-derived identity of a capsule (internal/capsule/canonical.go). Hashing and the
    text form of a time are parameters; both are taken to tell different inputs apart. */
module CapsuleIdentity {
  import opened Wrappers
  import opened JsonText
  import opened CanonicalJson

  const SECOND: nat := 1_000_000_000

  /** Nanoseconds since the zero time, which counts as no time at all, and a zone offset. */
  datatype Time = Time(nanos: int, zone: int)

  /** Each entity keeps the fields the identity treats specially; `rest` are its other
      serialized fields, already as a document. */
  datatype Event = Event(timestamp: Time, rest: map<string, Tree>)
  datatype Identity = Identity(id: string, lineageRoot: string, rest: map<string, Tree>)
  datatype Projection = Projection(
    estimatedBytes: nat, estimatedTokens: nat, bootstrapSha: string, markdownSha: string, rest: map<string, Tree>)
  datatype Header = Header(
    identity: Identity, projection: Projection, conversation: map<string, Tree>, rest: map<string, Tree>)

  datatype Capsule = Capsule(header: Header, events: seq<Event>)

  /** The surroundings: the text of a time, the digest, which strings are
      absolute paths, and whether the fields not told apart here carry none where they may
      not. */
  datatype World = World(clock: int -> string, digest: string -> string, absolute: string -> bool,
      clean: Capsule -> bool)

  ghost predicate Faithful(w: World) {
    && (forall a, b :: w.clock(a) == w.clock(b) ==> a == b)
    && (forall a, b :: w.digest(a) == w.digest(b) ==> a == b)
    && !w.absolute("")
  }

  // ---------------------------------------------------------------------------
  // Normalization
  // ---------------------------------------------------------------------------

  function Truncated(t: Time): Time {
    if t.nanos == 0 then t else Time(t.nanos / SECOND * SECOND, 0)
  }

  /** The time is in UTC, and the fraction of its second is gone. */
  lemma TruncatedIs(t: Time)
    ensures t.nanos == 0 ==> Truncated(t) == t
    ensures t.nanos != 0 ==>
      var r := Truncated(t);
      && r.zone == 0 && r.nanos <= t.nanos && r.nanos % 1_000_000_000 == 0
      && forall m :: r.nanos < m <= t.nanos ==> m % 1_000_000_000 != 0
  {
    var n := t.nanos / SECOND * SECOND;
    assert n <= t.nanos < n + SECOND;
    forall m | n < m <= t.nanos ensures m % SECOND != 0 {
      assert 0 < m - n < SECOND && m == (t.nanos / SECOND) * SECOND + (m - n);
    }
  }

  function NormalizeEvents(events: seq<Event>): (r: seq<Event>)
    ensures |r| == |events|
  {
    seq(|events|, i requires 0 <= i < |events| => events[i].(timestamp := Truncated(events[i].timestamp)))
  }

  function Normalize(c: Capsule): Capsule {
    c.(events := NormalizeEvents(c.events))
  }

  // ---------------------------------------------------------------------------
  // The document
  // ---------------------------------------------------------------------------

  function Decimal(n: nat): string {
    (if n < 10 then [] else Decimal(n / 10)) + ["0123456789"[n % 10]]
  }

  lemma {:induction false} DecimalDigits(n: nat)
    ensures Decimal(n) != [] && DigitsValue(Decimal(n)) == n
    ensures forall i :: 0 <= i < |Decimal(n)| ==> Digit(Decimal(n)[i])
    ensures n >= 1 ==> Decimal(n)[0] != '0'
    ensures n < 10 ==> |Decimal(n)| == 1
  {
    var s := Decimal(n);
    var last := "0123456789"[n % 10];
    assert last as int - '0' as int == n % 10;
    if n >= 10 {
      DecimalDigits(n / 10);
      assert s == Decimal(n / 10) + [last];
      assert s[..|s| - 1] == Decimal(n / 10);
    } else {
      assert s[..0] == [];
    }
  }

  /** It is a number of JSON, and denotes `n`. */
  lemma DecimalIsLiteral(n: nat)
    ensures NumberLiteral(Decimal(n)) && DigitsValue(Decimal(n)) == n
  {
    DecimalDigits(n);
    DigitsAreLiteral(Decimal(n));
  }

  /** A field left out when empty. */
  function OmitEmpty(key: string, value: string): map<string, Tree> {
    if value == "" then map[] else map[key := Str(value)]
  }

  function EventDoc(w: World, e: Event): Tree {
    Obj(e.rest + if e.timestamp.nanos == 0 then map[] else map["timestamp" := Str(w.clock(e.timestamp.nanos))])
  }

  function EventDocs(w: World, events: seq<Event>): (docs: seq<Tree>)
    ensures |docs| == |events|
  {
    seq(|events|, i requires 0 <= i < |events| => EventDoc(w, events[i]))
  }

  function IdentityDoc(i: Identity): Tree {
    Obj(i.rest + map["id" := Str(i.id), "lineage_root" := Str(i.lineageRoot)])
  }

  function ProjectionDoc(p: Projection): Tree {
    Obj(p.rest
        + map["estimated_bytes" := Num(Decimal(p.estimatedBytes)),
          "estimated_tokens" := Num(Decimal(p.estimatedTokens))]
        + OmitEmpty("bootstrap_sha256", p.bootstrapSha) + OmitEmpty("markdown_sha256", p.markdownSha))
  }

  function Document(w: World, c: Capsule): Tree {
    Obj(c.header.rest
        + map["identity" := IdentityDoc(c.header.identity),
              "projection" := ProjectionDoc(c.header.projection),
              "conversation" := Obj(c.header.conversation + map["events" := Arr(EventDocs(w, c.events))])])
  }

  ghost predicate FieldsOk(fields: map<string, Tree>, reserved: set<string>) {
    fields.Keys !! reserved && forall k :: k in fields ==> WellFormed(fields[k])
  }

  /** The other fields are other fields, and their numbers are numbers. */
  ghost predicate Proper(c: Capsule) {
    && FieldsOk(c.header.identity.rest, {"id", "lineage_root"})
    && FieldsOk(c.header.projection.rest,
      {"estimated_bytes", "estimated_tokens", "bootstrap_sha256", "markdown_sha256"})
    && FieldsOk(c.header.conversation, {"events"})
    && FieldsOk(c.header.rest, {"identity", "projection", "conversation"})
    && forall i :: 0 <= i < |c.events| ==> FieldsOk(c.events[i].rest, {"timestamp"})
  }

  /** What the path check looks at beside the four fields named below. */
  function Skeleton(c: Capsule): Capsule {
    Capsule(Blanked(c.header, ""),
      seq(|c.events|, i requires 0 <= i < |c.events| => c.events[i].(timestamp := Time(0, 0))))
  }

  /** The fields named here that hold no path, and so no absolute one. */
  function Opaque(h: Header): set<string> {
    {h.identity.id, h.identity.lineageRoot, h.projection.bootstrapSha, h.projection.markdownSha}
  }

  ghost predicate PathsOk(w: World, c: Capsule) {
    (forall s :: s in Opaque(c.header) ==> !w.absolute(s)) && w.clean(Skeleton(c))
  }

  ghost function Canonical(w: World, c: Capsule): Option<string> {
    if PathsOk(w, c) then Some(Print(Document(w, Normalize(c)))) else None
  }

  // ---------------------------------------------------------------------------
  // The identity
  // ---------------------------------------------------------------------------

  /** The header with the fields derived from the identity, or rendered after it, left out. */
  function Blanked(h: Header, root: string): Header {
    h.(identity := h.identity.(id := "", lineageRoot := root),
       projection := h.projection.(estimatedBytes := 0, estimatedTokens := 0, bootstrapSha := "", markdownSha := ""))
  }

  /** A lineage root that is the capsule itself is left out too. */
  function Root(h: Header): string {
    if h.identity.lineageRoot == h.identity.id then "" else h.identity.lineageRoot
  }

  function Preimage(c: Capsule): Capsule {
    c.(header := Blanked(c.header, Root(c.header)))
  }

  ghost function IdOf(w: World, c: Capsule): Option<string> {
    var bytes := Canonical(w, Preimage(c));
    if bytes.None? then None else Some(w.digest(bytes.value))
  }

  // ---------------------------------------------------------------------------
  // The operations, which truncate times in the caller's own events
  // ---------------------------------------------------------------------------

  method NormalizeCapsule(events: array<Event>)
    modifies events
    ensures events[..] == NormalizeEvents(old(events[..]))
  {
    for i := 0 to events.Length
      invariant forall j :: 0 <= j < i ==> events[j] == NormalizeEvents(old(events[..]))[j]
      invariant forall j :: i <= j < events.Length ==> events[j] == old(events[j])
    {
      var t := events[i].timestamp;
      if t.nanos == 0 {
        continue;
      }
      events[i] := events[i].(timestamp := Time(t.nanos / SECOND * SECOND, 0));
    }
  }

  method RejectAbsolutePathFields(w: World, c: Capsule) returns (ok: bool)
    ensures ok <==> PathsOk(w, c)
  {
    var h := c.header;
    if w.absolute(h.identity.id) {
      return false;
    }
    if w.absolute(h.identity.lineageRoot) {
      return false;
    }
    if w.absolute(h.projection.bootstrapSha) {
      return false;
    }
    if w.absolute(h.projection.markdownSha) {
      return false;
    }
    return w.clean(Skeleton(c));
  }

  method CanonicalBytes(w: World, header: Header, events: array<Event>) returns (bytes: Option<string>)
    modifies events
    ensures events[..] == NormalizeEvents(old(events[..]))
    ensures bytes == Canonical(w, Capsule(header, old(events[..])))
  {
    hide Print;
    ghost var c := Capsule(header, events[..]);
    NormalizeCapsule(events);
    var n := Capsule(header, events[..]);
    SkeletonIgnoresTimes(c);
    var ok := RejectAbsolutePathFields(w, n);
    if !ok {
      return None;
    }
    var buf := new Buffer();
    WriteCanonical(buf, Document(w, n));
    assert "" + Print(Document(w, n)) == Print(Document(w, n));
    return Some(buf.text);
  }

  method ComputeID(w: World, header: Header, events: array<Event>) returns (id: Option<string>)
    modifies events
    ensures events[..] == NormalizeEvents(old(events[..]))
    ensures id == IdOf(w, Capsule(header, old(events[..])))
  {
    var h := header;
    if h.identity.lineageRoot == h.identity.id {
      h := h.(identity := h.identity.(lineageRoot := ""));
    }
    h := h.(identity := h.identity.(id := ""));
    h := h.(projection := h.projection.(estimatedBytes := 0, estimatedTokens := 0, bootstrapSha := "",
      markdownSha := ""));
    var bytes := CanonicalBytes(w, h, events);
    return if bytes.None? then None else Some(w.digest(bytes.value));
  }

  lemma SkeletonIgnoresTimes(c: Capsule)
    ensures Skeleton(Normalize(c)) == Skeleton(c)
  {}

  // ---------------------------------------------------------------------------
  // What an identity depends on
  // ---------------------------------------------------------------------------

  lemma NormalizeTwice(c: Capsule)
    ensures Normalize(Normalize(c)) == Normalize(c)
  {}

  /** Encoding a capsule first, which truncates its times, does not change its identity. */
  lemma EncodingFirstKeepsID(w: World, c: Capsule)
    ensures Canonical(w, Normalize(c)) == Canonical(w, c)
    ensures IdOf(w, Normalize(c)) == IdOf(w, c)
  {
    NormalizeTwice(c);
    SkeletonIgnoresTimes(c);
    NormalizeTwice(Preimage(c));
    SkeletonIgnoresTimes(Preimage(c));
    assert Preimage(Normalize(c)) == Normalize(Preimage(c));
  }

  /** Nor does filling in what is rendered after it. */
  lemma DerivedFieldsKeepID(w: World, c: Capsule, bytes: nat, tokens: nat, bootstrap: string, markdown: string)
    ensures
      var p := c.header.projection.(estimatedBytes := bytes, estimatedTokens := tokens, bootstrapSha := bootstrap,
        markdownSha := markdown);
      IdOf(w, c.(header := c.header.(projection := p))) == IdOf(w, c)
  {}

  function WithID(c: Capsule, id: string): Capsule {
    c.(header := c.header.(identity := c.header.identity.(id := id)))
  }

  function WithRoot(c: Capsule, root: string): Capsule {
    c.(header := c.header.(identity := c.header.identity.(lineageRoot := root)))
  }

  lemma MapParts(a: map<string, Tree>, b: map<string, Tree>, a': map<string, Tree>, b': map<string, Tree>,
      reserved: set<string>)
    requires a.Keys !! reserved && b.Keys !! reserved && a'.Keys <= reserved && b'.Keys <= reserved
    requires a + a' == b + b'
    ensures a == b && a' == b'
  {
    forall k | k in a ensures k in b && a[k] == b[k] { assert (a + a')[k] == a[k]; }
    forall k | k in b ensures k in a { assert k in b + b'; }
    forall k | k in a' ensures k in b' && a'[k] == b'[k] {
      assert k in a + a' && k !in b;
      assert (a + a')[k] == a'[k] && (b + b')[k] == b'[k];
    }
    forall k | k in b' ensures k in a' { assert k in b + b'; }
  }

  lemma EventsTellApart(w: World, a: seq<Event>, b: seq<Event>)
    requires Faithful(w) && EventDocs(w, NormalizeEvents(a)) == EventDocs(w, NormalizeEvents(b))
    requires forall i :: 0 <= i < |a| ==> FieldsOk(a[i].rest, {"timestamp"})
    requires forall i :: 0 <= i < |b| ==> FieldsOk(b[i].rest, {"timestamp"})
    ensures |a| == |b|
    ensures forall i :: 0 <= i < |a| ==>
      a[i].rest == b[i].rest && Truncated(a[i].timestamp).nanos == Truncated(b[i].timestamp).nanos
  {
    var na, nb := NormalizeEvents(a), NormalizeEvents(b);
    assert |EventDocs(w, na)| == |a| && |EventDocs(w, nb)| == |b|;
    forall i | 0 <= i < |a|
      ensures a[i].rest == b[i].rest && Truncated(a[i].timestamp).nanos == Truncated(b[i].timestamp).nanos
    {
      assert EventDocs(w, na)[i] == EventDoc(w, na[i]) == EventDoc(w, nb[i]);
      EventTellsApart(w, na[i], nb[i]);
    }
  }

  lemma EventTellsApart(w: World, a: Event, b: Event)
    requires Faithful(w) && EventDoc(w, a) == EventDoc(w, b)
    requires FieldsOk(a.rest, {"timestamp"}) && FieldsOk(b.rest, {"timestamp"})
    ensures a.rest == b.rest && a.timestamp.nanos == b.timestamp.nanos
  {}

  /** Two encodings of the same text are of capsules with the same fields, up to the zone of
      an absent time. */
  ghost predicate SameContent(a: Capsule, b: Capsule) {
    && a.header == b.header && |a.events| == |b.events|
    && forall i :: 0 <= i < |a.events| ==>
         && a.events[i].rest == b.events[i].rest
         && Truncated(a.events[i].timestamp).nanos == Truncated(b.events[i].timestamp).nanos
  }

  lemma IdentityTellsApart(a: Identity, b: Identity)
    requires FieldsOk(a.rest, {"id", "lineage_root"}) && FieldsOk(b.rest, {"id", "lineage_root"})
    requires IdentityDoc(a) == IdentityDoc(b)
    ensures a == b
  {}

  /** Projections whose derived fields have been left out. */
  lemma ProjectionTellsApart(a: Projection, b: Projection)
    requires a == Projection(0, 0, "", "", a.rest) && b == Projection(0, 0, "", "", b.rest)
    requires FieldsOk(a.rest, {"estimated_bytes", "estimated_tokens", "bootstrap_sha256", "markdown_sha256"})
    requires FieldsOk(b.rest, {"estimated_bytes", "estimated_tokens", "bootstrap_sha256", "markdown_sha256"})
    requires ProjectionDoc(a) == ProjectionDoc(b)
    ensures a == b
  {}

  lemma DocumentTellsApart(w: World, a: Capsule, b: Capsule)
    requires Faithful(w) && Proper(a) && Proper(b)
    requires a.header == Blanked(a.header, a.header.identity.lineageRoot)
    requires b.header == Blanked(b.header, b.header.identity.lineageRoot)
    requires Document(w, Normalize(a)) == Document(w, Normalize(b))
    ensures SameContent(a, b)
  {
    hide IdentityDoc, ProjectionDoc, EventDocs, WellFormed;
    var na, nb := Normalize(a), Normalize(b);
    var reserved := {"identity", "projection", "conversation"};
    var ca: map<string, Tree> := map["events" := Arr(EventDocs(w, na.events))];
    var cb: map<string, Tree> := map["events" := Arr(EventDocs(w, nb.events))];
    var ta: map<string, Tree> := map["identity" := IdentityDoc(a.header.identity),
      "projection" := ProjectionDoc(a.header.projection),
                  "conversation" := Obj(a.header.conversation + ca)];
    var tb: map<string, Tree> := map["identity" := IdentityDoc(b.header.identity),
      "projection" := ProjectionDoc(b.header.projection),
                  "conversation" := Obj(b.header.conversation + cb)];
    MapParts(a.header.rest, b.header.rest, ta, tb, reserved);
    assert ta["identity"] == tb["identity"] && ta["projection"] == tb["projection"];
    assert ta["conversation"] == tb["conversation"];
    IdentityTellsApart(a.header.identity, b.header.identity);
    ProjectionTellsApart(a.header.projection, b.header.projection);
    MapParts(a.header.conversation, b.header.conversation, ca, cb, {"events"});
    assert ca["events"] == cb["events"];
    EventsTellApart(w, a.events, b.events);
  }

  lemma SameContentSameDocument(w: World, a: Capsule, b: Capsule)
    requires SameContent(a, b)
    ensures Document(w, Normalize(a)) == Document(w, Normalize(b))
  {
    var na, nb := Normalize(a), Normalize(b);
    assert EventDocs(w, na.events) == EventDocs(w, nb.events);
  }

  lemma MergeWellFormed(a: map<string, Tree>, b: map<string, Tree>)
    requires forall k :: k in a ==> WellFormed(a[k])
    requires forall k :: k in b ==> WellFormed(b[k])
    ensures WellFormed(Obj(a + b))
  {}

  lemma ProjectionWellFormed(p: Projection)
    requires forall k :: k in p.rest ==> WellFormed(p.rest[k])
    ensures WellFormed(ProjectionDoc(p))
  {
    hide NumberLiteral, Decimal;
    DecimalIsLiteral(p.estimatedBytes);
    DecimalIsLiteral(p.estimatedTokens);
    var numbers: map<string, Tree> :=
      map["estimated_bytes" := Num(Decimal(p.estimatedBytes)), "estimated_tokens" := Num(Decimal(p.estimatedTokens))];
    var bootstrap, markdown := OmitEmpty("bootstrap_sha256", p.bootstrapSha),
      OmitEmpty("markdown_sha256", p.markdownSha);
    MergeWellFormed(p.rest, numbers);
    MergeWellFormed(p.rest + numbers, bootstrap);
    MergeWellFormed(p.rest + numbers + bootstrap, markdown);
  }

  lemma EventWellFormed(w: World, e: Event)
    requires FieldsOk(e.rest, {"timestamp"})
    ensures WellFormed(EventDoc(w, e))
  {}

  lemma PartsWellFormed(w: World, c: Capsule)
    requires Proper(c)
    ensures WellFormed(IdentityDoc(c.header.identity)) && WellFormed(ProjectionDoc(c.header.projection))
    ensures forall i :: 0 <= i < |c.events| ==> WellFormed(EventDoc(w, c.events[i]))
  {
    hide ProjectionDoc, EventDoc;
    ProjectionWellFormed(c.header.projection);
    var i := c.header.identity;
    MergeWellFormed(i.rest, map["id" := Str(i.id), "lineage_root" := Str(i.lineageRoot)]);
    forall j | 0 <= j < |c.events| ensures WellFormed(EventDoc(w, c.events[j])) {
      EventWellFormed(w, c.events[j]);
    }
  }

  lemma DocumentWellFormed(w: World, c: Capsule)
    requires Proper(c)
    ensures WellFormed(Document(w, Normalize(c)))
  {
    hide IdentityDoc, ProjectionDoc, EventDoc;
    var n := Normalize(c);
    PartsWellFormed(w, n);
    var events: map<string, Tree> := map["events" := Arr(EventDocs(w, n.events))];
    assert WellFormed(Arr(EventDocs(w, n.events)));
    MergeWellFormed(c.header.conversation, events);
    MergeWellFormed(c.header.rest,
      map["identity" := IdentityDoc(c.header.identity), "projection" := ProjectionDoc(c.header.projection),
          "conversation" := Obj(c.header.conversation + events)]);
  }

  /** Two capsules that have an identity have the same one exactly when they agree on every
      serialized field, times to the second, the identity itself, a lineage root naming it,
      and the derived projection fields left aside. */
  lemma SameIDExactly(w: World, a: Capsule, b: Capsule)
    requires Faithful(w) && Proper(a) && Proper(b) && IdOf(w, a).Some? && IdOf(w, b).Some?
    ensures IdOf(w, a) == IdOf(w, b) <==> SameContent(Preimage(a), Preimage(b))
  {
    hide Print, WellFormed, Document;
    var pa, pb := Preimage(a), Preimage(b);
    DocumentWellFormed(w, pa);
    DocumentWellFormed(w, pb);
    PrintInjective(Document(w, Normalize(pa)), Document(w, Normalize(pb)));
    if IdOf(w, a) == IdOf(w, b) {
      DocumentTellsApart(w, pa, pb);
    }
    if SameContent(pa, pb) {
      SameContentSameDocument(w, pa, pb);
    }
  }

  /** Assigning an identity keeps what was computed exactly when the lineage root stays, or
      stays not, the capsule itself or nothing. */
  lemma SettingIDExactly(w: World, c: Capsule, id: string)
    requires Faithful(w) && Proper(c) && IdOf(w, c).Some? && IdOf(w, WithID(c, id)).Some?
    ensures
      var root := c.header.identity.lineageRoot;
      IdOf(w, WithID(c, id)) == IdOf(w, c)
      <==> (root == "" || root == c.header.identity.id <==> root == "" || root == id)
  {
    SameIDExactly(w, c, WithID(c, id));
    assert Preimage(c).events == Preimage(WithID(c, id)).events;
  }

  /** A capsule assigned its own identity, as its lineage root or beside an older one, still
      has that identity. */
  lemma IdentityIsFixed(w: World, c: Capsule, id: string)
    requires c.header.identity.id == "" && (c.header.identity.lineageRoot == "" || c.header.identity.lineageRoot != id)
    ensures IdOf(w, WithID(c, id)) == IdOf(w, c)
    ensures c.header.identity.lineageRoot == "" ==> IdOf(w, WithRoot(WithID(c, id), id)) == IdOf(w, c)
  {}

  // ---------------------------------------------------------------------------
  // What a reader finds in the canonical bytes
  // ---------------------------------------------------------------------------

  /** The value under those names, from the outermost inwards. */
  function Under(t: Tree, names: seq<string>): Option<Tree> {
    if names == [] then Some(t)
    else if !t.Obj? || names[0] !in t.fields then None
    else Under(t.fields[names[0]], names[1..])
  }

  predicate IsNumber(t: Option<Tree>, n: int) {
    t.Some? && t.value.Num? && NumberLiteral(t.value.literal) && DigitsValue(t.value.literal) == n
  }

  function Text(s: string): Option<Tree> { Some(Str(s)) }

  function TextOrNone(s: string): Option<Tree> { if s == "" then None else Some(Str(s)) }

  /** The text of a time in whole seconds, of which none is left of a time within a second
      of none. */
  ghost predicate Dated(w: World, doc: Tree, nanos: int) {
    var r := nanos - nanos % 1_000_000_000;
    Under(doc, ["timestamp"]) == if r == 0 then None else Some(Str(w.clock(r)))
  }

  lemma UnderOne(fields: map<string, Tree>, a: string)
    ensures Under(Obj(fields), [a]) == if a in fields then Some(fields[a]) else None
  {
    assert [a][1..] == [];
  }

  lemma UnderTwo(fields: map<string, Tree>, a: string, b: string)
    ensures Under(Obj(fields), [a, b]) == if a in fields then Under(fields[a], [b]) else None
  {
    assert [a, b][1..] == [b];
  }

  lemma IdentitySays(i: Identity)
    ensures Under(IdentityDoc(i), ["id"]) == Text(i.id)
    ensures Under(IdentityDoc(i), ["lineage_root"]) == Text(i.lineageRoot)
  {
    UnderOne(IdentityDoc(i).fields, "id");
    UnderOne(IdentityDoc(i).fields, "lineage_root");
  }

  lemma ProjectionSays(p: Projection)
    requires FieldsOk(p.rest, {"estimated_bytes", "estimated_tokens", "bootstrap_sha256", "markdown_sha256"})
    ensures IsNumber(Under(ProjectionDoc(p), ["estimated_bytes"]), p.estimatedBytes)
    ensures IsNumber(Under(ProjectionDoc(p), ["estimated_tokens"]), p.estimatedTokens)
    ensures Under(ProjectionDoc(p), ["bootstrap_sha256"]) == TextOrNone(p.bootstrapSha)
    ensures Under(ProjectionDoc(p), ["markdown_sha256"]) == TextOrNone(p.markdownSha)
  {
    hide Decimal, NumberLiteral, WellFormed, DigitsValue;
    DecimalIsLiteral(p.estimatedBytes);
    DecimalIsLiteral(p.estimatedTokens);
    var fields := ProjectionDoc(p).fields;
    UnderOne(fields, "estimated_bytes");
    UnderOne(fields, "estimated_tokens");
    UnderOne(fields, "bootstrap_sha256");
    UnderOne(fields, "markdown_sha256");
  }

  lemma EventSays(w: World, e: Event)
    requires FieldsOk(e.rest, {"timestamp"})
    ensures Dated(w, EventDoc(w, e.(timestamp := Truncated(e.timestamp))), e.timestamp.nanos)
  {
    hide WellFormed;
    var t := Truncated(e.timestamp);
    assert t.nanos == e.timestamp.nanos - e.timestamp.nanos % SECOND;
    UnderOne(EventDoc(w, e.(timestamp := t)).fields, "timestamp");
  }

  /** The document under its names. */
  ghost predicate Says(w: World, t: Tree, c: Capsule) {
    var i, p := c.header.identity, c.header.projection;
    && Under(t, ["identity", "id"]) == Text(i.id)
    && Under(t, ["identity", "lineage_root"]) == Text(i.lineageRoot)
    && IsNumber(Under(t, ["projection", "estimated_bytes"]), p.estimatedBytes)
    && IsNumber(Under(t, ["projection", "estimated_tokens"]), p.estimatedTokens)
    && Under(t, ["projection", "bootstrap_sha256"]) == TextOrNone(p.bootstrapSha)
    && Under(t, ["projection", "markdown_sha256"]) == TextOrNone(p.markdownSha)
    && exists docs: seq<Tree> ::
         && Under(t, ["conversation", "events"]) == Some(Arr(docs)) && |docs| == |c.events|
         && forall j :: 0 <= j < |docs| ==> Dated(w, docs[j], c.events[j].timestamp.nanos)
  }

  lemma DocumentSays(w: World, c: Capsule)
    requires Proper(c)
    ensures Says(w, Document(w, Normalize(c)), c)
  {
    hide IdentityDoc, ProjectionDoc, EventDoc, Dated, IsNumber, Under, WellFormed, Truncated;
    var n := Normalize(c);
    var fields := Document(w, n).fields;
    IdentitySays(c.header.identity);
    ProjectionSays(c.header.projection);
    UnderTwo(fields, "identity", "id");
    UnderTwo(fields, "identity", "lineage_root");
    UnderTwo(fields, "projection", "estimated_bytes");
    UnderTwo(fields, "projection", "estimated_tokens");
    UnderTwo(fields, "projection", "bootstrap_sha256");
    UnderTwo(fields, "projection", "markdown_sha256");
    UnderTwo(fields, "conversation", "events");
    UnderOne(fields["conversation"].fields, "events");
    var docs := EventDocs(w, n.events);
    forall j | 0 <= j < |docs| ensures Dated(w, docs[j], c.events[j].timestamp.nanos) {
      EventSays(w, c.events[j]);
    }
  }

  /** The canonical bytes are JSON, and a reader finds the fields of the capsule in them under
      the names they are serialized under. */
  lemma BytesSay(w: World, c: Capsule)
    requires Proper(c) && Canonical(w, c).Some?
    ensures ReadDocument(Canonical(w, c).value).Some? && Says(w, ReadDocument(Canonical(w, c).value).value, c)
  {
    hide Print, ReadDocument, WellFormed, Says, Document;
    DocumentWellFormed(w, c);
    DocumentReads(Document(w, Normalize(c)));
    DocumentSays(w, c);
  }
}
