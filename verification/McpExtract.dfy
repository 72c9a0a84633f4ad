/** Extracting MCP server declarations from a token stream without building the document
    (internal/capability/mcp_json.go). The document appears in specifications only. */
module McpExtract {
  import opened Wrappers
  import opened JsonStream

  const MAX_ENTRIES: nat := 256

  datatype Transport = Unknown | Stdio | HTTP | SSE
  datatype Scope = User | Local
  datatype Declaration = Declaration(name: string, transport: Transport)
  datatype Scoped = Scoped(name: string, scope: Scope, transport: Transport)

  /** What an extractor found, and whether it had to leave some out. */
  datatype Found<T> = Found(names: seq<T>, truncated: bool)

  // ---------------------------------------------------------------------------
  // The transport of one server
  // ---------------------------------------------------------------------------

  /** The transport a token names, if it names one. */
  function Recognized(t: Token): (r: Option<Transport>)
    ensures r != Some(Unknown)
  {
    if t == Str("stdio") then Some(Stdio)
    else if t == Str("http") then Some(HTTP)
    else if t == Str("sse") then Some(SSE)
    else None
  }

  function InferTransport(declared: Option<Transport>, typeSeen: bool, hasCommand: bool, hasUrl: bool,
      urlMeansHttp: bool): Transport {
    if typeSeen then
      if declared.None? || (hasCommand && declared != Some(Stdio)) || (hasUrl && declared == Some(Stdio)) then Unknown
      else declared.value
    else if hasCommand && !hasUrl then Stdio
    else if hasUrl && !hasCommand && urlMeansHttp then HTTP
    else Unknown
  }

  ghost predicate Named(ms: seq<Member>, name: string) {
    exists i :: 0 <= i < |ms| && ms[i].name == name
  }

  /** Every type the server declares is `t`. */
  ghost predicate OnlyType(ms: seq<Member>, t: Transport) {
    forall i :: 0 <= i < |ms| && ms[i].name == "type" ==> TypeOf(ms[i].value) == Some(t)
  }

  /** What the types that count are called. */
  ghost const TYPE_NAMES: map<string, Transport> := map["stdio" := Stdio, "http" := HTTP, "sse" := SSE]

  ghost function TypeOf(j: Json): Option<Transport> {
    if j.JStr? && j.text in TYPE_NAMES then Some(TYPE_NAMES[j.text]) else None
  }

  /** The server's shape leaves no doubt that its transport is `t`. */
  ghost predicate Certain(j: Json, t: Transport) {
    && t != Unknown && j.JObj? && |j.members| <= 256
    && if Named(j.members, "type") then
         && OnlyType(j.members, t)
         && (Named(j.members, "command") ==> t == Stdio)
         && (Named(j.members, "url") ==> t != Stdio)
       else
         t == Stdio && Named(j.members, "command") && !Named(j.members, "url")
  }

  ghost function TransportOf(j: Json): Transport {
    if Certain(j, Stdio) then Stdio
    else if Certain(j, HTTP) then HTTP
    else if Certain(j, SSE) then SSE
    else Unknown
  }

  /** A server's shape is never certain of two transports, and the transport reported is
      the one it is certain of, if any. */
  lemma TransportOfMeans(j: Json, t: Transport)
    ensures t != Unknown ==> (TransportOf(j) == t <==> Certain(j, t))
    ensures TransportOf(j) == Unknown <==> !Certain(j, Stdio) && !Certain(j, HTTP) && !Certain(j, SSE)
  {}

  /** What the extractor remembers of the fields `ms`, and how it settles the transport. */
  ghost predicate Summary(ms: seq<Member>, declared: Option<Transport>, typeSeen: bool, ambiguous: bool) {
    && declared != Some(Unknown)
    && (declared.Some? ==> typeSeen)
    && (|ms| > MAX_ENTRIES ==> ambiguous)
    && (|ms| <= MAX_ENTRIES ==>
      && typeSeen == Named(ms, "type")
      && (ambiguous ==> typeSeen && forall t :: !OnlyType(ms, t))
      && (typeSeen && declared.None? ==> forall t :: !OnlyType(ms, t))
      && (!ambiguous && declared.Some? ==> OnlyType(ms, declared.value)))
  }

  lemma NamedOne(ms: seq<Member>, m: Member, name: string)
    ensures Named(ms + [m], name) <==> Named(ms, name) || m.name == name
  {
    var all := ms + [m];
    if Named(ms, name) {
      var i :| 0 <= i < |ms| && ms[i].name == name;
      assert all[i].name == name;
    }
    assert all[|ms|] == m;
  }

  lemma OnlyTypeOne(ms: seq<Member>, m: Member, t: Transport)
    ensures OnlyType(ms + [m], t) <==> OnlyType(ms, t) && (m.name == "type" ==> TypeOf(m.value) == Some(t))
  {
    var all := ms + [m];
    assert all[|ms|] == m;
    if OnlyType(all, t) {
      forall i | 0 <= i < |ms| && ms[i].name == "type" ensures TypeOf(ms[i].value) == Some(t) {
        assert all[i] == ms[i];
      }
    }
  }

  lemma OnlyTypeIs(ms: seq<Member>, t: Transport, u: Transport)
    requires Named(ms, "type") && OnlyType(ms, t) && OnlyType(ms, u)
    ensures t == u
  {}

  lemma SummaryOne(ms: seq<Member>, m: Member, declared: Option<Transport>, typeSeen: bool, ambiguous: bool)
    requires Summary(ms, declared, typeSeen, ambiguous)
    ensures |ms| >= MAX_ENTRIES ==> Summary(ms + [m], declared, typeSeen, true)
    ensures |ms| < MAX_ENTRIES && m.name != "type" ==> Summary(ms + [m], declared, typeSeen, ambiguous)
    ensures |ms| < MAX_ENTRIES && m.name == "type" ==>
      Summary(ms + [m], TypeOf(m.value), true,
        ambiguous || (typeSeen && (TypeOf(m.value).None? || declared != TypeOf(m.value))))
  {
    NamedOne(ms, m, "type");
    forall t ensures OnlyType(ms + [m], t) <==> OnlyType(ms, t) && (m.name == "type" ==> TypeOf(m.value) == Some(t)) {
      OnlyTypeOne(ms, m, t);
    }
    forall t, u | Named(ms, "type") && OnlyType(ms, t) && OnlyType(ms, u) ensures t == u {
      OnlyTypeIs(ms, t, u);
    }
  }

  lemma SummaryNone()
    ensures Summary([], None, false, false)
    ensures !Named([], "command") && !Named([], "url")
  {}

  lemma SummarySettles(ms: seq<Member>, declared: Option<Transport>, typeSeen: bool, ambiguous: bool)
    requires Summary(ms, declared, typeSeen, ambiguous)
    ensures TransportOf(JObj(ms)) == if ambiguous then Unknown
      else InferTransport(declared, typeSeen, Named(ms, "command"), Named(ms, "url"), false)
  {}

  // ---------------------------------------------------------------------------
  // What an extractor accepts
  // ---------------------------------------------------------------------------

  /** The objects the extractors walk: the servers themselves, an object with an mcpServers
      field, the projects of Claude's state file, and that file as a whole. */
  datatype Place = Server | Servers | Object | Projects(active: string -> bool) | State(active: string -> bool)
  {
    function Rank(): nat {
      match this
      case Server => 0 case Servers => 1 case Object => 2 case Projects(_) => 3 case State(_) => 4
    }
  }

  /** Where the value of a member called `name` is itself walked. */
  ghost function Inner(place: Place, name: string): (inner: Option<Place>)
    ensures inner.Some? ==> inner.value.Rank() < place.Rank()
  {
    match place
    case Server => None
    case Servers => Some(Server)
    case Object => if name == "mcpServers" then Some(Servers) else None
    case Projects(active) => if active(name) then Some(Object) else None
    case State(active) =>
      if name == "mcpServers" then Some(Servers)
      else if name == "projects" then Some(Projects(active))
      else None
  }

  ghost predicate Accepts(place: Place, j: Json)
    decreases place.Rank(), 1
  {
    if place == Server && !j.JObj? then WithinDepth(j, 8)
    else j.JObj? && forall i :: 0 <= i < |j.members| ==> AcceptsMember(place, j.members[i])
  }

  ghost predicate AcceptsMember(place: Place, m: Member)
    decreases place.Rank(), 0
  {
    match Inner(place, m.name)
    case Some(inner) => Accepts(inner, m.value)
    case None => WithinDepth(m.value, 8)
  }

  ghost predicate AcceptsAll(place: Place, ms: seq<Member>) {
    forall i :: 0 <= i < |ms| ==> AcceptsMember(place, ms[i])
  }

  /** A document the extractor for `place` accepts starts at `pos`. */
  ghost predicate Good(place: Place, stream: seq<Token>, pos: nat) {
    Doc(stream, pos).Some? && Accepts(place, Doc(stream, pos).value)
  }

  /** The value of the member at `pos` is one its object may have. */
  ghost predicate GoodMember(place: Place, stream: seq<Token>, pos: nat) {
    && pos < |stream| && stream[pos].Str? && Doc(stream, pos + 1).Some?
    && AcceptsMember(place, Member(stream[pos].text, Doc(stream, pos + 1).value))
  }

  ghost function ValueAt(stream: seq<Token>, pos: nat): Json {
    if Doc(stream, pos).Some? then Doc(stream, pos).value else JNull
  }

  lemma AcceptsNone(place: Place)
    ensures AcceptsAll(place, [])
  {}

  lemma AcceptsOne(place: Place, ms: seq<Member>, m: Member)
    requires AcceptsAll(place, ms) && AcceptsMember(place, m)
    ensures AcceptsAll(place, ms + [m])
  {}

  lemma AcceptsObject(place: Place, ms: seq<Member>)
    requires AcceptsAll(place, ms)
    ensures Accepts(place, JObj(ms))
  {}

  lemma NotAnObject(place: Place, stream: seq<Token>, pos: nat)
    requires place != Server && (pos >= |stream| || stream[pos] != Delim('{'))
    ensures !Good(place, stream, pos)
  {}

  /** A server that is no object only has to be skipped. */
  lemma NotObject(stream: seq<Token>, pos: nat)
    requires pos < |stream| && stream[pos] != Delim('{')
    ensures Good(Server, stream, pos) <==> Skippable(stream, pos, 0)
    ensures Good(Server, stream, pos) ==> TransportOf(Doc(stream, pos).value) == Unknown
  {}

  /** The fields of a server only have to be skipped. */
  lemma ServerMember(stream: seq<Token>, pos: nat)
    ensures GoodMember(Server, stream, pos) <==> pos < |stream| && stream[pos].Str? && Skippable(stream, pos + 1, 0)
    ensures pos + 1 < |stream| || !Skippable(stream, pos + 1, 0)
  {}

  /** The first token of a value is enough to tell which transport it names. */
  lemma TypeToken(stream: seq<Token>, pos: nat)
    requires Doc(stream, pos).Some?
    ensures pos < |stream| && TypeOf(Doc(stream, pos).value) == Recognized(stream[pos])
  {}

  lemma NestedMember(place: Place, stream: seq<Token>, pos: nat)
    requires place != Server
    ensures GoodMember(place, stream, pos) ==> pos < |stream| && stream[pos].Str?
    ensures pos < |stream| && stream[pos].Str? ==>
      (GoodMember(place, stream, pos) <==>
        match Inner(place, stream[pos].text)
        case Some(inner) => Good(inner, stream, pos + 1)
        case None => Skippable(stream, pos + 1, 0))
  {}

  lemma BadMember(place: Place, stream: seq<Token>, start: nat, ms: seq<Member>, pos: nat)
    requires Read(stream, start, ms, pos) && pos < |stream| && !Closes(stream[pos])
    requires !GoodMember(place, stream, pos)
    ensures !Good(place, stream, start)
  {
    hide Read, Doc, Holds, AcceptsMember;
    if Doc(stream, start).Some? {
      ReadNext(stream, start, ms, pos);
      var all := Doc(stream, start).value.members;
      assert all[|ms|] == Member(stream[pos].text, Doc(stream, pos + 1).value);
      assert !AcceptsMember(place, all[|ms|]);
    }
  }

  lemma BadEnd(place: Place, stream: seq<Token>, start: nat, ms: seq<Member>, pos: nat)
    requires Read(stream, start, ms, pos) && (pos >= |stream| || Closes(stream[pos]))
    requires pos >= |stream| || stream[pos] != Delim('}')
    ensures !Good(place, stream, start)
  {
    hide Read, Doc, Holds;
    if Doc(stream, start).Some? { ReadNext(stream, start, ms, pos); }
  }

  // ---------------------------------------------------------------------------
  // What an extractor finds
  // ---------------------------------------------------------------------------

  ghost function ServerNames(ms: seq<Member>): (ds: seq<Declaration>)
    ensures |ds| == |ms|
  {
    seq(|ms|, i requires 0 <= i < |ms| => Declaration(ms[i].name, TransportOf(ms[i].value)))
  }

  /** All servers of all the object's mcpServers members, in document order. */
  ghost function ObjectNames(ms: seq<Member>): seq<Declaration> {
    if ms == [] then [] else ObjectNames(ms[..|ms| - 1]) + MemberNames(ms[|ms| - 1])
  }

  ghost function MemberNames(m: Member): seq<Declaration> {
    if m.name == "mcpServers" && m.value.JObj? then ServerNames(m.value.members) else []
  }

  function ScopedAs(scope: Scope, ds: seq<Declaration>): (ss: seq<Scoped>)
    ensures |ss| == |ds|
    ensures forall i :: 0 <= i < |ds| ==>
      ss[i].name == ds[i].name && ss[i].scope == scope && ss[i].transport == ds[i].transport
  {
    seq(|ds|, i requires 0 <= i < |ds| => Scoped(ds[i].name, scope, ds[i].transport))
  }

  /** All servers of the active projects. */
  ghost function ProjectNames(active: string -> bool, ms: seq<Member>): seq<Scoped> {
    if ms == [] then [] else ProjectNames(active, ms[..|ms| - 1]) + OneProjectNames(active, ms[|ms| - 1])
  }

  ghost function OneProjectNames(active: string -> bool, m: Member): seq<Scoped> {
    if active(m.name) && m.value.JObj? then ScopedAs(Local, ObjectNames(m.value.members)) else []
  }

  /** All servers of Claude's state file: the user's own and those of the active projects. */
  ghost function StateNames(active: string -> bool, ms: seq<Member>): seq<Scoped> {
    if ms == [] then [] else StateNames(active, ms[..|ms| - 1]) + FieldNames(active, ms[|ms| - 1])
  }

  ghost function FieldNames(active: string -> bool, m: Member): seq<Scoped> {
    if m.name == "mcpServers" then ScopedAs(User, MemberNames(m))
    else if m.name == "projects" && m.value.JObj? then ProjectNames(active, m.value.members)
    else []
  }

  lemma NamesOne(active: string -> bool, ms: seq<Member>, m: Member)
    ensures ServerNames(ms + [m]) == ServerNames(ms) + [Declaration(m.name, TransportOf(m.value))]
    ensures ObjectNames(ms + [m]) == ObjectNames(ms) + MemberNames(m)
    ensures ProjectNames(active, ms + [m]) == ProjectNames(active, ms) + OneProjectNames(active, m)
    ensures StateNames(active, ms + [m]) == StateNames(active, ms) + FieldNames(active, m)
  {}

  lemma NoNames(active: string -> bool)
    ensures Bounded(ServerNames([])) == Found([], false)
    ensures Bounded(ObjectNames([])) == Found([], false)
    ensures Bounded(ProjectNames(active, [])) == Found([], false)
    ensures Bounded(StateNames(active, [])) == Found([], false)
  {}

  // ---------------------------------------------------------------------------
  // Keeping only so many
  // ---------------------------------------------------------------------------

  /** The first 256 of `all`, and whether that left any out. */
  function Bounded<T>(all: seq<T>): Found<T> {
    if |all| <= 256 then Found(all, false) else Found(all[..256], true)
  }

  function Join<T>(a: Found<T>, b: Found<T>): Found<T> {
    var names := Bounded(a.names + b.names);
    Found(names.names, a.truncated || b.truncated || names.truncated)
  }

  /** Bounding the parts and then the whole is bounding the whole. */
  lemma BoundedJoin<T>(a: seq<T>, b: seq<T>)
    ensures Join(Bounded(a), Bounded(b)) == Bounded(a + b)
  {}

  lemma BoundedFits<T>(all: seq<T>)
    ensures |Bounded(all).names| <= MAX_ENTRIES
  {}

  lemma BoundedScoped(scope: Scope, ds: seq<Declaration>)
    ensures Bounded(ScopedAs(scope, ds)) == Found(ScopedAs(scope, Bounded(ds).names), Bounded(ds).truncated)
  {}

  lemma ServerNamesOne(ms: seq<Member>, m: Member)
    ensures
      var found, d := Bounded(ServerNames(ms)), Declaration(m.name, TransportOf(m.value));
      Bounded(ServerNames(ms + [m]))
      == if |found.names| < MAX_ENTRIES then Found(found.names + [d], found.truncated) else Found(found.names, true)
  {}

  lemma ObjectNamesOne(ms: seq<Member>, m: Member)
    ensures |Bounded(ObjectNames(ms)).names| <= MAX_ENTRIES
    ensures m.name == "mcpServers" ==>
      Bounded(ObjectNames(ms + [m])) == Join(Bounded(ObjectNames(ms)), Bounded(MemberNames(m)))
    ensures m.name != "mcpServers" ==> ObjectNames(ms + [m]) == ObjectNames(ms)
  {
    hide Bounded, Join, ObjectNames;
    BoundedFits(ObjectNames(ms));
    NamesOne(_ => false, ms, m);
    BoundedJoin(ObjectNames(ms), MemberNames(m));
  }

  lemma ProjectNamesOne(active: string -> bool, ms: seq<Member>, m: Member)
    ensures |Bounded(ProjectNames(active, ms)).names| <= MAX_ENTRIES
    ensures active(m.name) && m.value.JObj? ==>
      var got := Bounded(ObjectNames(m.value.members));
      Bounded(ProjectNames(active, ms + [m]))
      == Join(Bounded(ProjectNames(active, ms)), Found(ScopedAs(Local, got.names), got.truncated))
    ensures !active(m.name) ==> ProjectNames(active, ms + [m]) == ProjectNames(active, ms)
  {
    hide Bounded, Join, ProjectNames, ObjectNames, ScopedAs;
    BoundedFits(ProjectNames(active, ms));
    NamesOne(active, ms, m);
    BoundedJoin(ProjectNames(active, ms), OneProjectNames(active, m));
    if m.value.JObj? { BoundedScoped(Local, ObjectNames(m.value.members)); }
  }

  lemma FieldNamesOne(active: string -> bool, ms: seq<Member>, m: Member)
    ensures |Bounded(StateNames(active, ms)).names| <= MAX_ENTRIES
    ensures m.name == "mcpServers" ==>
      var got := Bounded(MemberNames(m));
      Bounded(StateNames(active, ms + [m]))
      == Join(Bounded(StateNames(active, ms)), Found(ScopedAs(User, got.names), got.truncated))
    ensures m.name == "projects" && m.value.JObj? ==>
      Bounded(StateNames(active, ms + [m]))
      == Join(Bounded(StateNames(active, ms)), Bounded(ProjectNames(active, m.value.members)))
    ensures m.name != "mcpServers" && m.name != "projects" ==>
      StateNames(active, ms + [m]) == StateNames(active, ms)
  {
    hide Bounded, Join, MemberNames, StateNames, ProjectNames, ScopedAs;
    BoundedFits(StateNames(active, ms));
    NamesOne(active, ms, m);
    BoundedJoin(StateNames(active, ms), FieldNames(active, m));
    BoundedScoped(User, MemberNames(m));
  }

  method AppendBounded<T>(found: Found<T>, got: Found<T>) returns (r: Found<T>)
    requires |found.names| <= MAX_ENTRIES
    ensures r == Join(found, got)
  {
    var names, truncated := found.names, found.truncated;
    for i := 0 to |got.names|
      invariant names == Bounded(found.names + got.names[..i]).names
      invariant truncated == (found.truncated || |found.names| + i > MAX_ENTRIES)
    {
      assert found.names + got.names[..i + 1] == (found.names + got.names[..i]) + [got.names[i]];
      if |names| >= MAX_ENTRIES {
        truncated := true;
      } else {
        names := names + [got.names[i]];
      }
    }
    assert got.names[..|got.names|] == got.names;
    return Found(names, truncated || got.truncated);
  }

  // ---------------------------------------------------------------------------
  // The extractors
  // ---------------------------------------------------------------------------

  /** The value that starts here is one server. Its transport is all that is kept. */
  method ExtractClaudeTransport(dec: Decoder) returns (r: Option<Transport>)
    modifies dec
    ensures dec.pos >= old(dec.pos) && (r.Some? ==> dec.pos <= |dec.stream|)
    ensures r.Some? <==> Good(Server, dec.stream, old(dec.pos))
    ensures r.Some? ==>
      var j := Doc(dec.stream, old(dec.pos)).value;
      r.value == TransportOf(j) && dec.pos == old(dec.pos) + Size(j)
  {
    hide Read, Doc, Holds, Size, Tokens, WithinDepth, Summary, TransportOf, Accepts, AcceptsMember, AcceptsAll, Named;
    ghost var start := dec.pos;
    if Doc(dec.stream, start).Some? { FirstToken(dec.stream, start); }
    var t := dec.Token();
    if t.None? {
      return None;
    }
    if t != Some(Delim('{')) {
      var ok := dec.SkipToken(t.value, 0);
      NotObject(dec.stream, start);
      return if ok then Some(Unknown) else None;
    }
    var declared: Option<Transport> := None;
    var typeSeen, hasCommand, hasUrl, ambiguous, fields := false, false, false, false, 0;
    ghost var ms: seq<Member> := [];
    ReadNone(dec.stream, start);
    AcceptsNone(Server);
    SummaryNone();
    while dec.More()
      invariant start < dec.pos <= |dec.stream|
      invariant Read(dec.stream, start, ms, dec.pos) && AcceptsAll(Server, ms)
      invariant fields == |ms| && Summary(ms, declared, typeSeen, ambiguous)
      invariant !ambiguous ==> hasCommand == Named(ms, "command") && hasUrl == Named(ms, "url")
      decreases |dec.stream| - dec.pos
    {
      ghost var here := dec.pos;
      ServerMember(dec.stream, here);
      if !GoodMember(Server, dec.stream, here) { BadMember(Server, dec.stream, start, ms, here); }
      var key := dec.ObjectKey();
      if key.None? {
        return None;
      }
      var value := dec.Token();
      if value.None? {
        return None;
      }
      var ok := dec.SkipToken(value.value, 0);
      if !ok {
        return None;
      }
      ghost var m := Member(key.value, Doc(dec.stream, here + 1).value);
      TypeToken(dec.stream, here + 1);
      SummaryOne(ms, m, declared, typeSeen, ambiguous);
      NamedOne(ms, m, "command");
      NamedOne(ms, m, "url");
      ReadOne(dec.stream, start, ms, here, m.name, m.value);
      AcceptsOne(Server, ms, m);
      ms := ms + [m];
      fields := fields + 1;
      if fields > MAX_ENTRIES {
        ambiguous := true;
      } else if key.value == "type" {
        var candidate := Recognized(value.value);
        if typeSeen && (candidate.None? || declared.None? || candidate != declared) {
          ambiguous := true;
        }
        typeSeen, declared := true, candidate;
      } else if key.value == "command" {
        hasCommand := true;
      } else if key.value == "url" {
        hasUrl := true;
      }
    }
    if dec.pos >= |dec.stream| || dec.stream[dec.pos] != Delim('}') { BadEnd(Server, dec.stream, start, ms, dec.pos); }
    var end := dec.Token();
    if end != Some(Delim('}')) {
      return None;
    }
    ObjectRead(dec.stream, start, ms, dec.pos - 1);
    AcceptsObject(Server, ms);
    SummarySettles(ms, declared, typeSeen, ambiguous);
    if ambiguous {
      return Some(Unknown);
    }
    return Some(InferTransport(declared, typeSeen, hasCommand, hasUrl, false));
  }

  /** The value that starts here is the object of all servers, each under its name. */
  method ExtractMCPServerObject(dec: Decoder) returns (r: Option<Found<Declaration>>)
    modifies dec
    ensures dec.pos >= old(dec.pos) && (r.Some? ==> dec.pos <= |dec.stream|)
    ensures r.Some? <==> Good(Servers, dec.stream, old(dec.pos))
    ensures r.Some? ==>
      var j := Doc(dec.stream, old(dec.pos)).value;
      r.value == Bounded(MemberNames(Member("mcpServers", j))) && dec.pos == old(dec.pos) + Size(j)
  {
    hide Read, Doc, Holds, Size, Tokens, WithinDepth, TransportOf, Accepts, AcceptsMember, AcceptsAll, ServerNames,
      Bounded;
    ghost var start := dec.pos;
    if start >= |dec.stream| || dec.stream[start] != Delim('{') { NotAnObject(Servers, dec.stream, start); }
    var t := dec.Token();
    if t != Some(Delim('{')) {
      return None;
    }
    var names: seq<Declaration>, truncated := [], false;
    NoNames(_ => false);
    ghost var ms: seq<Member> := [];
    ReadNone(dec.stream, start);
    AcceptsNone(Servers);
    while dec.More()
      invariant start < dec.pos <= |dec.stream|
      invariant Read(dec.stream, start, ms, dec.pos) && AcceptsAll(Servers, ms)
      invariant Found(names, truncated) == Bounded(ServerNames(ms))
      decreases |dec.stream| - dec.pos
    {
      ghost var here := dec.pos;
      NestedMember(Servers, dec.stream, here);
      if !GoodMember(Servers, dec.stream, here) { BadMember(Servers, dec.stream, start, ms, here); }
      var key := dec.ObjectKey();
      if key.None? {
        return None;
      }
      var transport := ExtractClaudeTransport(dec);
      if transport.None? {
        return None;
      }
      ghost var m := Member(key.value, Doc(dec.stream, here + 1).value);
      ServerNamesOne(ms, m);
      ReadOne(dec.stream, start, ms, here, m.name, m.value);
      AcceptsOne(Servers, ms, m);
      ms := ms + [m];
      if |names| < MAX_ENTRIES {
        names := names + [Declaration(key.value, transport.value)];
      } else {
        truncated := true;
      }
    }
    if dec.pos >= |dec.stream| || dec.stream[dec.pos] != Delim('}') { BadEnd(Servers, dec.stream, start, ms, dec.pos); }
    var end := dec.Token();
    if end != Some(Delim('}')) {
      return None;
    }
    ObjectRead(dec.stream, start, ms, dec.pos - 1);
    AcceptsObject(Servers, ms);
    return Some(Found(names, truncated));
  }

  /** The value that starts here is an object whose mcpServers members hold servers. */
  method ExtractObjectMCPField(dec: Decoder) returns (r: Option<Found<Declaration>>)
    modifies dec
    ensures dec.pos >= old(dec.pos) && (r.Some? ==> dec.pos <= |dec.stream|)
    ensures r.Some? <==> Good(Object, dec.stream, old(dec.pos))
    ensures r.Some? ==>
      var j := Doc(dec.stream, old(dec.pos)).value;
      j.JObj? && r.value == Bounded(ObjectNames(j.members)) && dec.pos == old(dec.pos) + Size(j)
  {
    hide Read, Doc, Holds, Size, Tokens, WithinDepth, Accepts, AcceptsMember, AcceptsAll, ObjectNames, MemberNames,
      Bounded, Join;
    ghost var start := dec.pos;
    if start >= |dec.stream| || dec.stream[start] != Delim('{') { NotAnObject(Object, dec.stream, start); }
    var t := dec.Token();
    if t != Some(Delim('{')) {
      return None;
    }
    var found: Found<Declaration> := Found([], false);
    ghost var ms: seq<Member> := [];
    ReadNone(dec.stream, start);
    AcceptsNone(Object);
    NoNames(_ => false);
    while dec.More()
      invariant start < dec.pos <= |dec.stream|
      invariant Read(dec.stream, start, ms, dec.pos) && AcceptsAll(Object, ms)
      invariant found == Bounded(ObjectNames(ms))
      decreases |dec.stream| - dec.pos
    {
      ghost var here := dec.pos;
      NestedMember(Object, dec.stream, here);
      if !GoodMember(Object, dec.stream, here) { BadMember(Object, dec.stream, start, ms, here); }
      var key := dec.ObjectKey();
      if key.None? {
        return None;
      }
      ghost var m := Member(key.value, ValueAt(dec.stream, here + 1));
      ObjectNamesOne(ms, m);
      if key.value != "mcpServers" {
        var ok := dec.SkipValue(0);
        if !ok {
          return None;
        }
      } else {
        var got := ExtractMCPServerObject(dec);
        if got.None? {
          return None;
        }
        found := AppendBounded(found, got.value);
      }
      ReadOne(dec.stream, start, ms, here, m.name, m.value);
      AcceptsOne(Object, ms, m);
      ms := ms + [m];
    }
    if dec.pos >= |dec.stream| || dec.stream[dec.pos] != Delim('}') { BadEnd(Object, dec.stream, start, ms, dec.pos); }
    var end := dec.Token();
    if end != Some(Delim('}')) {
      return None;
    }
    ObjectRead(dec.stream, start, ms, dec.pos - 1);
    AcceptsObject(Object, ms);
    return Some(found);
  }

  /** The value that starts here maps projects to their settings. Only active ones count. */
  method ExtractProjectMCP(dec: Decoder, active: string -> bool) returns (r: Option<Found<Scoped>>)
    modifies dec
    ensures dec.pos >= old(dec.pos) && (r.Some? ==> dec.pos <= |dec.stream|)
    ensures r.Some? <==> Good(Projects(active), dec.stream, old(dec.pos))
    ensures r.Some? ==>
      var j := Doc(dec.stream, old(dec.pos)).value;
      j.JObj? && r.value == Bounded(ProjectNames(active, j.members)) && dec.pos == old(dec.pos) + Size(j)
  {
    hide Read, Doc, Holds, Size, Tokens, WithinDepth, Accepts, AcceptsMember, AcceptsAll, ObjectNames, ProjectNames,
      OneProjectNames, ScopedAs, Bounded, Join;
    ghost var start := dec.pos;
    ghost var place := Projects(active);
    if start >= |dec.stream| || dec.stream[start] != Delim('{') { NotAnObject(place, dec.stream, start); }
    var t := dec.Token();
    if t != Some(Delim('{')) {
      return None;
    }
    var found: Found<Scoped> := Found([], false);
    ghost var ms: seq<Member> := [];
    ReadNone(dec.stream, start);
    AcceptsNone(place);
    NoNames(active);
    while dec.More()
      invariant start < dec.pos <= |dec.stream|
      invariant Read(dec.stream, start, ms, dec.pos) && AcceptsAll(place, ms)
      invariant found == Bounded(ProjectNames(active, ms))
      decreases |dec.stream| - dec.pos
    {
      ghost var here := dec.pos;
      NestedMember(place, dec.stream, here);
      if !GoodMember(place, dec.stream, here) { BadMember(place, dec.stream, start, ms, here); }
      var key := dec.ObjectKey();
      if key.None? {
        return None;
      }
      ghost var m := Member(key.value, ValueAt(dec.stream, here + 1));
      ProjectNamesOne(active, ms, m);
      if !active(key.value) {
        var ok := dec.SkipValue(0);
        if !ok {
          return None;
        }
      } else {
        var got := ExtractObjectMCPField(dec);
        if got.None? {
          return None;
        }
        found := AppendBounded(found, Found(ScopedAs(Local, got.value.names), got.value.truncated));
      }
      ReadOne(dec.stream, start, ms, here, m.name, m.value);
      AcceptsOne(place, ms, m);
      ms := ms + [m];
    }
    if dec.pos >= |dec.stream| || dec.stream[dec.pos] != Delim('}') { BadEnd(place, dec.stream, start, ms, dec.pos); }
    var end := dec.Token();
    if end != Some(Delim('}')) {
      return None;
    }
    ObjectRead(dec.stream, start, ms, dec.pos - 1);
    AcceptsObject(place, ms);
    return Some(found);
  }

  /** The whole input is Claude's state file. */
  method ExtractClaudeStateMCP(dec: Decoder, active: string -> bool) returns (r: Option<Found<Scoped>>)
    requires dec.pos == 0
    modifies dec
    ensures r.Some? <==> dec.clean && WholeInput(State(active), dec.stream)
    ensures r.Some? ==>
      var j := Doc(dec.stream, 0).value;
      j.JObj? && r.value == Bounded(StateNames(active, j.members))
  {
    hide Read, Doc, Holds, Size, Tokens, WithinDepth, Accepts, AcceptsMember, AcceptsAll, StateNames, FieldNames,
      MemberNames, ProjectNames, ScopedAs, Bounded, Join;
    ghost var place := State(active);
    if 0 >= |dec.stream| || dec.stream[0] != Delim('{') { NotAnObject(place, dec.stream, 0); }
    var t := dec.Token();
    if t != Some(Delim('{')) {
      return None;
    }
    var found: Found<Scoped> := Found([], false);
    ghost var ms: seq<Member> := [];
    ReadNone(dec.stream, 0);
    AcceptsNone(place);
    NoNames(active);
    while dec.More()
      invariant 0 < dec.pos <= |dec.stream|
      invariant Read(dec.stream, 0, ms, dec.pos) && AcceptsAll(place, ms)
      invariant found == Bounded(StateNames(active, ms))
      decreases |dec.stream| - dec.pos
    {
      ghost var here := dec.pos;
      NestedMember(place, dec.stream, here);
      if !GoodMember(place, dec.stream, here) { BadMember(place, dec.stream, 0, ms, here); }
      var key := dec.ObjectKey();
      if key.None? {
        return None;
      }
      ghost var m := Member(key.value, ValueAt(dec.stream, here + 1));
      FieldNamesOne(active, ms, m);
      if key.value == "mcpServers" {
        var got := ExtractMCPServerObject(dec);
        if got.None? {
          return None;
        }
        found := AppendBounded(found, Found(ScopedAs(User, got.value.names), got.value.truncated));
      } else if key.value == "projects" {
        var got := ExtractProjectMCP(dec, active);
        if got.None? {
          return None;
        }
        found := AppendBounded(found, got.value);
      } else {
        var ok := dec.SkipValue(0);
        if !ok {
          return None;
        }
      }
      ReadOne(dec.stream, 0, ms, here, m.name, m.value);
      AcceptsOne(place, ms, m);
      ms := ms + [m];
    }
    if dec.pos >= |dec.stream| || dec.stream[dec.pos] != Delim('}') { BadEnd(place, dec.stream, 0, ms, dec.pos); }
    var end := dec.Token();
    if end != Some(Delim('}')) {
      return None;
    }
    ObjectRead(dec.stream, 0, ms, dec.pos - 1);
    AcceptsObject(place, ms);
    var done := dec.AtEnd();
    if !done {
      return None;
    }
    return Some(found);
  }

  /** The whole input is an object with an mcpServers field. */
  method ExtractTopLevelMCP(dec: Decoder) returns (r: Option<Found<Declaration>>)
    requires dec.pos == 0
    modifies dec
    ensures r.Some? <==> dec.clean && WholeInput(Object, dec.stream)
    ensures r.Some? ==>
      var j := Doc(dec.stream, 0).value;
      j.JObj? && r.value == Bounded(ObjectNames(j.members))
  {
    hide Doc, Size, Accepts, ObjectNames, Bounded;
    r := ExtractObjectMCPField(dec);
    if r.Some? {
      var done := dec.AtEnd();
      if !done {
        r := None;
      }
    }
  }

  // ---------------------------------------------------------------------------
  // Reading the result off the document
  // ---------------------------------------------------------------------------

  /** The input is the tokens of one document, and the extractor for `place` accepts it. */
  ghost predicate WholeInput(place: Place, stream: seq<Token>) {
    Good(place, stream, 0) && Size(Doc(stream, 0).value) == |stream|
  }

  /** In terms of documents alone: the tokens of `j`, and nothing else, are accepted exactly
      when `j` is, and are understood as `j`. */
  lemma WholeInputIs(place: Place, j: Json)
    ensures Doc(Tokens(j), 0) == Some(j)
    ensures WholeInput(place, Tokens(j)) <==> Accepts(place, j)
  {
    assert Tokens(j)[0..0 + |Tokens(j)|] == Tokens(j);
    DocIs(Tokens(j), 0, j);
  }

  /** Any other stream is not the tokens of any document. */
  lemma WholeInputOnly(place: Place, stream: seq<Token>)
    ensures WholeInput(place, stream) <==> exists j :: stream == Tokens(j) && Accepts(place, j)
  {
    if WholeInput(place, stream) {
      var j := Doc(stream, 0).value;
      assert stream[0..0 + |Tokens(j)|] == stream;
      assert stream == Tokens(j) && Accepts(place, j);
    }
    if j :| stream == Tokens(j) && Accepts(place, j) {
      WholeInputIs(place, j);
    }
  }
}
