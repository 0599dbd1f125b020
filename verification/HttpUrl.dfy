/**
 The URL splitter of `http_parser.c`: the automaton over the whole URL finds scheme, server, path, query and
 fragment; a second automaton over the server part finds user information, host and port.
 */
module HttpUrl {
  import opened Wrappers
  import opened HttpChars
  import opened HttpMachine
  import opened HttpRecognisers

  datatype Field = SCHEMA | HOST | PORT | PATH | QUERY | FRAGMENT | USERINFO

  /** An entry of the field table. */
  datatype Span = Span(off: nat, len: nat)

  /** The entries whose bit is set. */
  type Table = map<Field, Span>

  /** The owner of each byte of the URL: the field it belongs to, or none for a delimiter. */
  type Owners = seq<Option<Field>>

  /** Storing into a 16-bit field. */
  function Narrow(n: nat): nat {
    n % 0x1_0000
  }

  // ----- tables and owners -----

  ghost predicate Entry(t: Table, f: Field, owners: Owners)
    requires f in t
  {
    && 0 < t[f].len && t[f].off + t[f].len <= |owners|
    && forall i | 0 <= i < |owners| :: owners[i] == Some(f) <==> t[f].off <= i < t[f].off + t[f].len
  }

  /** The entries of the table are exactly the bytes of their fields, and all fields that own bytes are in it. */
  ghost predicate Tiles(t: Table, owners: Owners) {
    && (forall f | f in t :: Entry(t, f, owners))
    && (forall i | 0 <= i < |owners| && owners[i].Some? :: owners[i].value in t)
  }

  lemma TilesEnter(t: Table, owners: Owners, p: nat, f: Field)
    requires Tiles(t, owners) && p < |owners| && owners[p].None? && f !in t
    ensures Tiles(t[f := Span(p, 1)], owners[p := Some(f)])
  {
    var t', owners' := t[f := Span(p, 1)], owners[p := Some(f)];
    forall g | g in t'
      ensures Entry(t', g, owners')
    {
      assert g in t ==> Entry(t, g, owners);
    }
  }

  lemma TilesGrow(t: Table, owners: Owners, p: nat, f: Field)
    requires Tiles(t, owners) && p < |owners| && owners[p].None? && f in t && t[f].off + t[f].len == p
    ensures Tiles(t[f := Span(t[f].off, t[f].len + 1)], owners[p := Some(f)])
  {
    var t', owners' := t[f := Span(t[f].off, t[f].len + 1)], owners[p := Some(f)];
    assert Entry(t, f, owners);
    forall g | g in t'
      ensures Entry(t', g, owners')
    {
      assert g in t ==> Entry(t, g, owners);
    }
  }

  lemma TilesErase(t: Table, owners: Owners, f: Field)
    requires Tiles(t, owners) && f in t
    ensures Tiles(t - {f},
                  seq(|owners|, i requires 0 <= i < |owners| => if owners[i] == Some(f) then None else owners[i]))
  {
    var t', owners' := t - {f},
      seq(|owners|, i requires 0 <= i < |owners| => if owners[i] == Some(f) then None else owners[i]);
    forall g | g in t'
      ensures Entry(t', g, owners')
    {
      assert Entry(t, g, owners);
    }
  }

  // ----- the outer automaton -----

  function StartState(connect: bool): State {
    if connect then ServerStart else SpacesBeforeUrl
  }

  /** The state after the first n bytes. */
  function Walk(url: string, connect: bool, n: nat): State
    requires n <= |url|
  {
    if n == 0 then StartState(connect) else ParseUrlChar(Walk(url, connect, n - 1), url[n - 1])
  }

  /** The field of the bytes that lead to a state; none for the states after a delimiter. */
  function PartOf(s: State): Option<Field> {
    if s.Schema? then Some(SCHEMA)
    else if s.Server? || s.ServerWithAt? then Some(HOST)
    else if s.Path? then Some(PATH)
    else if s.Query? then Some(QUERY)
    else if s.Fragment? then Some(FRAGMENT)
    else None
  }

  predicate UrlState(s: State) {
    || s.SpacesBeforeUrl? || s.Schema? || s.SchemaSlash? || s.SchemaSlashSlash? || s.ServerStart? || s.Server?
    || s.ServerWithAt? || s.Path? || s.QueryStart? || s.Query? || s.FragmentStart? || s.Fragment?
  }

  /** How far into the URL a state is. */
  function Level(s: State): nat {
    if s.SpacesBeforeUrl? then 0
    else if s.Schema? then 1
    else if s.SchemaSlash? || s.SchemaSlashSlash? || s.ServerStart? then 2
    else if s.Server? || s.ServerWithAt? then 3
    else if s.Path? then 4
    else if s.QueryStart? then 5
    else if s.Query? then 6
    else if s.FragmentStart? then 7
    else 8
  }

  function LevelOf(f: Field): nat {
    match f
    case SCHEMA => 1
    case PATH => 4
    case QUERY => 6
    case FRAGMENT => 8
    case HOST => 3
    case PORT => 3
    case USERINFO => 3
  }

  predicate IsDelimiter(ch: char) {
    ch == ':' || ch == '/' || ch == '?' || ch == '#' || ch == '@' || ch == '[' || ch == ']'
  }

  /** The automaton never goes back, and only delimiters lead to the states without a field. */
  lemma UrlCharStep(s: State, ch: char)
    requires UrlState(s)
    ensures var r := ParseUrlChar(s, ch);
      r.Dead? || (UrlState(r) && !r.SpacesBeforeUrl? && Level(s) <= Level(r) && (PartOf(r).None? ==> IsDelimiter(ch)))
  {
  }

  lemma PartLevel(s: State)
    requires UrlState(s) && PartOf(s).Some?
    ensures LevelOf(PartOf(s).value) == Level(s) && !PartOf(s).value.PORT? && !PartOf(s).value.USERINFO?
  {
  }

  lemma {:induction false} WalkLevels(url: string, connect: bool, m: nat, n: nat)
    requires m <= n <= |url| && !Walk(url, connect, n).Dead?
    ensures UrlState(Walk(url, connect, m)) && UrlState(Walk(url, connect, n))
    ensures Level(Walk(url, connect, m)) <= Level(Walk(url, connect, n))
  {
    hide ParseUrlChar, UrlState, Level;
    if n > 0 {
      DeadStays(Walk(url, connect, n - 1), url[n - 1]);
      WalkLevels(url, connect, if m < n then m else n - 1, n - 1);
      UrlCharStep(Walk(url, connect, n - 1), url[n - 1]);
    } else {
      StartIsUrl(connect);
    }
  }

  lemma StartIsUrl(connect: bool)
    ensures UrlState(StartState(connect)) && PartOf(StartState(connect)).None?
  {
  }

  lemma DeadStays(s: State, ch: char)
    ensures s.Dead? ==> ParseUrlChar(s, ch).Dead?
  {
  }

  /** The field that the outer automaton assigns to byte i. */
  function Outer(url: string, connect: bool, i: nat): Option<Field>
    requires i < |url|
  {
    PartOf(Walk(url, connect, i + 1))
  }

  // ----- the automaton over the server part -----

  datatype HostState =
    | HostDead | UserInfoStart | UserInfo | HostStart | V6Start | Host | V6 | V6End | ZoneStart | Zone
    | PortStart | Port

  /** `http_parse_host_char` */
  function HostChar(s: HostState, ch: char): HostState {
    if s.UserInfo? || s.UserInfoStart? then
      (if ch == '@' then HostStart else if IsUserInfoChar(ch) then UserInfo else HostDead)
    else if s.HostStart? then
      (if ch == '[' then V6Start else if IsHostChar(ch) then Host else HostDead)
    else if s.Host? && IsHostChar(ch) then Host
    else if s.Host? || s.V6End? then
      (if ch == ':' then PortStart else HostDead)
    else if s.V6? && ch == ']' then V6End
    else if s.V6? || s.V6Start? then
      (if IsHex(ch) || ch == ':' || ch == '.' then V6 else if s.V6? && ch == '%' then ZoneStart else HostDead)
    else if s.Zone? && ch == ']' then V6End
    else if s.Zone? || s.ZoneStart? then
      (if IsAlphaNum(ch) || ch == '%' || ch == '.' || ch == '-' || ch == '_' || ch == '~' then Zone else HostDead)
    else if (s.Port? || s.PortStart?) && IsNum(ch) then Port
    else HostDead
  }

  function HostPart(s: HostState): Option<Field> {
    if s.Host? || s.V6? || s.ZoneStart? || s.Zone? then Some(HOST)
    else if s.Port? then Some(PORT)
    else if s.UserInfo? then Some(USERINFO)
    else None
  }

  function HostLevel(s: HostState): nat {
    if s.UserInfoStart? then 0
    else if s.UserInfo? then 1
    else if s.HostStart? then 2
    else if s.V6Start? then 3
    else if s.Host? || s.V6? || s.ZoneStart? || s.Zone? then 4
    else if s.V6End? then 5
    else if s.PortStart? then 6
    else 7
  }

  function HostLevelOf(f: Field): nat {
    if f.USERINFO? then 1 else if f.PORT? then 7 else 4
  }

  /** Where the automaton must not end. */
  predicate Unfinished(s: HostState) {
    || s.HostStart? || s.V6Start? || s.V6? || s.ZoneStart? || s.Zone? || s.PortStart? || s.UserInfo?
    || s.UserInfoStart?
  }

  lemma HostCharStep(s: HostState, ch: char)
    ensures var r := HostChar(s, ch);
      || r.HostDead?
      || (HostLevel(s) <= HostLevel(r) && !s.HostDead? && (HostPart(r).None? ==> IsDelimiter(ch))
          && (HostLevel(r) >= 5 ==> HostLevel(s) >= 4))
  {
  }

  /** A state starts its field exactly when the level rises to it. */
  lemma HostEnters(s: HostState, ch: char)
    requires !HostChar(s, ch).HostDead?
    ensures var r := HostChar(s, ch);
      && (r.Host? || r.V6? || r.Port? || r.UserInfo? ==> (s != r <==> HostLevel(s) < HostLevel(r)))
      && (r.ZoneStart? || r.Zone? ==> HostLevel(s) == HostLevel(r))
      && (HostPart(r).Some? ==> HostLevelOf(HostPart(r).value) == HostLevel(r))
  {
  }

  /** Whether some '@' was seen in the server part. */
  predicate FoundAt(url: string, connect: bool, n: nat)
    requires n <= |url|
  {
    n > 0 && (Walk(url, connect, n).ServerWithAt? || FoundAt(url, connect, n - 1))
  }

  /** The state of the inner automaton after the server bytes among the first n bytes. */
  function Inner(url: string, connect: bool, n: nat): HostState
    requires n <= |url|
  {
    if n == 0 then (if FoundAt(url, connect, |url|) then UserInfoStart else HostStart)
    else if Outer(url, connect, n - 1) == Some(HOST) then HostChar(Inner(url, connect, n - 1), url[n - 1])
    else Inner(url, connect, n - 1)
  }

  /** The field of byte i in the end. */
  function Owner(url: string, connect: bool, i: nat): Option<Field>
    requires i < |url|
  {
    if Outer(url, connect, i) == Some(HOST) then HostPart(Inner(url, connect, i + 1)) else Outer(url, connect, i)
  }

  function AllOwners(url: string, connect: bool): (r: Owners)
    ensures |r| == |url| && forall i | 0 <= i < |url| :: r[i] == Owner(url, connect, i)
  {
    seq(|url|, i requires 0 <= i < |url| => Owner(url, connect, i))
  }

  predicate Owns(owners: Owners, f: Field) {
    Some(f) in owners
  }

  // ----- the outer loop -----

  /** What 16-bit fields keep of a table. */
  function Narrowed(t: Table): (r: Table)
    ensures r.Keys == t.Keys && forall f | f in t :: r[f] == Span(Narrow(t[f].off), Narrow(t[f].len))
  {
    map f | f in t :: Span(Narrow(t[f].off), Narrow(t[f].len))
  }

  /** The owners after the first n bytes. */
  function OuterUpTo(url: string, connect: bool, n: nat): (r: Owners)
    ensures |r| == |url| && forall i | 0 <= i < |url| :: r[i] == if i < n then Outer(url, connect, i) else None
  {
    seq(|url|, i requires 0 <= i < |url| => if i < n then Outer(url, connect, i) else None)
  }

  /** The entries lie at or below the level reached, and the one at this level ends at n and is the latest. */
  ghost predicate Laid(t: Table, s: State, n: nat, latest: Option<Field>) {
    && UrlState(s) && (PartOf(s).Some? ==> PartOf(s).value in t)
    && (latest.Some? ==> latest.value in t)
    && forall f | f in t ::
         && f != PORT && f != USERINFO && LevelOf(f) <= Level(s)
         && (LevelOf(f) == Level(s) ==> t[f].off + t[f].len == n && latest == Some(f))
  }

  /** What the loop does with the ghost table on a byte that leads to state s. */
  function Put(t: Table, f: Field, p: nat): Table {
    if f in t then t[f := Span(t[f].off, t[f].len + 1)] else t[f := Span(p, 1)]
  }

  lemma OuterDelimiter(url: string, connect: bool, t: Table, n: nat, latest: Option<Field>)
    requires n < |url| && !Walk(url, connect, n + 1).Dead? && Outer(url, connect, n).None?
    requires Tiles(t, OuterUpTo(url, connect, n)) && Laid(t, Walk(url, connect, n), n, latest)
    ensures Tiles(t, OuterUpTo(url, connect, n + 1)) && Laid(t, Walk(url, connect, n + 1), n + 1, latest)
  {
    hide ParseUrlChar;
    var s, r := Walk(url, connect, n), Walk(url, connect, n + 1);
    UrlCharStep(s, url[n]);
    assert OuterUpTo(url, connect, n + 1) == OuterUpTo(url, connect, n);
    DelimiterRises(s, url[n]);
  }

  lemma DelimiterRises(s: State, ch: char)
    requires UrlState(s) && !ParseUrlChar(s, ch).Dead? && PartOf(ParseUrlChar(s, ch)).None?
    ensures forall f: Field | LevelOf(f) <= Level(s) :: LevelOf(f) < Level(ParseUrlChar(s, ch))
  {
  }

  lemma OuterByte(url: string, connect: bool, t: Table, n: nat, latest: Option<Field>)
    requires n < |url| && !Walk(url, connect, n + 1).Dead? && Outer(url, connect, n).Some?
    requires Tiles(t, OuterUpTo(url, connect, n)) && Laid(t, Walk(url, connect, n), n, latest)
    ensures var f := Outer(url, connect, n).value;
      && (f in t <==> latest == Some(f)) && Tiles(Put(t, f, n), OuterUpTo(url, connect, n + 1))
      && Laid(Put(t, f, n), Walk(url, connect, n + 1), n + 1, Some(f))
  {
    hide ParseUrlChar, UrlState, Tiles, PartOf, LevelOf, Level;
    var s, r := Walk(url, connect, n), Walk(url, connect, n + 1);
    var f := Outer(url, connect, n).value;
    UrlCharStep(s, url[n]);
    PartLevel(r);
    var owners := OuterUpTo(url, connect, n);
    assert OuterUpTo(url, connect, n + 1) == owners[n := Some(f)];
    LevelsDiffer();
    if f in t {
      TilesGrow(t, owners, n, f);
    } else {
      TilesEnter(t, owners, n, f);
    }
  }

  lemma LevelsDiffer()
    ensures forall f: Field, g: Field |
      LevelOf(f) == LevelOf(g) && f != PORT && f != USERINFO && g != PORT && g != USERINFO :: f == g
  {
  }

  class ParserUrl {
    var port: nat
    var fields: Table

    constructor ()
    {
      port, fields := 0, map[];
    }
  }

  /** Counts byte p into field f of the table, starting the field unless it is the one of the byte before. */
  method Count(u: ParserUrl, f: Field, p: nat, latest: Option<Field>, ghost t: Table)
    requires u.fields == Narrowed(t) && (f in t <==> latest == Some(f))
    modifies u`fields
    ensures u.fields == Narrowed(Put(t, f, p))
  {
    if latest == Some(f) {
      NarrowNext(t[f].len);
      u.fields := u.fields[f := Span(u.fields[f].off, Narrow(u.fields[f].len + 1))];
    } else {
      u.fields := u.fields[f := Span(Narrow(p), 1)];
    }
  }

  lemma NarrowNext(n: nat)
    ensures Narrow(Narrow(n) + 1) == Narrow(n + 1) && Narrow(n) <= n
  {
  }

  /** The first loop of `http_parser_parse_url`. */
  method Scan(url: string, connect: bool, u: ParserUrl) returns (ok: bool, foundAt: bool, ghost t: Table)
    modifies u
    ensures u.port == 0
    ensures ok <==> !Walk(url, connect, |url|).Dead?
    ensures ok ==>
      Tiles(t, OuterUpTo(url, connect, |url|)) && u.fields == Narrowed(t) && foundAt == FoundAt(url, connect, |url|)
    ensures ok ==> PORT !in t && USERINFO !in t
  {
    hide ParseUrlChar, UrlState, Tiles, PartOf, LevelOf, Level, Laid, Put;
    u.port, u.fields := 0, map[];
    t, foundAt := map[], false;
    var s := StartState(connect);
    var latest := None;
    LaidAtStart(url, connect);
    for p := 0 to |url|
      invariant u.port == 0 && s == Walk(url, connect, p) && !s.Dead? && foundAt == FoundAt(url, connect, p)
      invariant Tiles(t, OuterUpTo(url, connect, p)) && Laid(t, s, p, latest) && u.fields == Narrowed(t)
    {
      s := ParseUrlChar(s, url[p]);
      if s.Dead? {
        StaysDead(url, connect, p + 1, |url|);
        ok := false;
        return;
      }
      if s.ServerWithAt? {
        foundAt := true;
      }
      var part := PartOf(s);
      if part.Some? {
        OuterByte(url, connect, t, p, latest);
        Count(u, part.value, p, latest, t);
        t := Put(t, part.value, p);
        latest := part;
      } else {
        OuterDelimiter(url, connect, t, p, latest);
      }
    }
    LaidFields(t, s, |url|, latest);
    ok := true;
  }

  lemma LaidFields(t: Table, s: State, n: nat, latest: Option<Field>)
    requires Laid(t, s, n, latest)
    ensures PORT !in t && USERINFO !in t
  {
  }

  lemma LaidAtStart(url: string, connect: bool)
    ensures Tiles(map[], OuterUpTo(url, connect, 0)) && Laid(map[], StartState(connect), 0, None)
    ensures !StartState(connect).Dead? && !StartState(connect).ServerWithAt?
  {
  }

  lemma {:induction false} StaysDead(url: string, connect: bool, m: nat, n: nat)
    requires m <= n <= |url| && Walk(url, connect, m).Dead?
    ensures Walk(url, connect, n).Dead?
  {
    if m < n {
      StaysDead(url, connect, m, n - 1);
      DeadStays(Walk(url, connect, n - 1), url[n - 1]);
    }
  }

  // ----- the loop over the server part -----

  /** The owners after the server bytes before p. */
  function HostUpTo(url: string, connect: bool, p: nat): (r: Owners)
    ensures |r| == |url|
    ensures forall i | 0 <= i < |url| ::
      (r[i] ==
       if Outer(url, connect, i) != Some(HOST) then Outer(url, connect, i)
       else if i < p then HostPart(Inner(url, connect, i + 1)) else None)
  {
    seq(|url|, i requires 0 <= i < |url| =>
      if Outer(url, connect, i) != Some(HOST) then Outer(url, connect, i)
      else if i < p then HostPart(Inner(url, connect, i + 1)) else None)
  }

  /** The server part is the bytes from a up to e. */
  ghost predicate Region(url: string, connect: bool, a: nat, e: nat) {
    a <= e <= |url| && forall i | 0 <= i < |url| :: Outer(url, connect, i) == Some(HOST) <==> a <= i < e
  }

  /** The entries of the server part lie at or below the level reached; the one at this level ends at p. */
  ghost predicate Settled(t: Table, s: HostState, p: nat) {
    && !s.HostDead? && (HOST in t <==> HostLevel(s) >= 4)
    && forall f | f == HOST || f == PORT || f == USERINFO ::
         && (f in t ==> HostLevelOf(f) <= HostLevel(s))
         && (HostLevelOf(f) == HostLevel(s) ==> f in t && t[f].off + t[f].len == p)
  }

  /** The table as stored: before its first byte the host is an empty entry. */
  function Stored(t: Table, a: nat): Table {
    if HOST in t then Narrowed(t) else Narrowed(t)[HOST := Span(Narrow(a), 0)]
  }

  function PutPart(t: Table, part: Option<Field>, p: nat): Table {
    if part.None? then t else Put(t, part.value, p)
  }

  lemma {:induction false} InnerSkips(url: string, connect: bool, m: nat, n: nat)
    requires m <= n <= |url| && forall i | m <= i < n :: Outer(url, connect, i) != Some(HOST)
    ensures Inner(url, connect, n) == Inner(url, connect, m)
  {
    if m < n {
      InnerSkips(url, connect, m, n - 1);
    }
  }

  lemma {:induction false} InnerStaysDead(url: string, connect: bool, m: nat, n: nat)
    requires m <= n <= |url| && Inner(url, connect, m).HostDead?
    ensures Inner(url, connect, n).HostDead?
  {
    if m < n {
      InnerStaysDead(url, connect, m, n - 1);
    }
  }

  lemma HostBegins(url: string, connect: bool, t: Table, foundAt: bool)
    requires Tiles(t, OuterUpTo(url, connect, |url|)) && HOST in t && PORT !in t && USERINFO !in t
    requires foundAt == FoundAt(url, connect, |url|)
    ensures var a := t[HOST].off; var s := if foundAt then UserInfoStart else HostStart;
      && Region(url, connect, a, a + t[HOST].len) && Inner(url, connect, a) == s
      && Tiles(t - {HOST}, HostUpTo(url, connect, a)) && Settled(t - {HOST}, s, a)
  {
    hide Walk, PartOf;
    var owners := OuterUpTo(url, connect, |url|);
    var a := t[HOST].off;
    assert Entry(t, HOST, owners);
    assert forall i | 0 <= i < |url| :: owners[i] == Outer(url, connect, i);
    InnerSkips(url, connect, 0, a);
    TilesErase(t, owners, HOST);
    assert HostUpTo(url, connect, a) ==
      seq(|owners|, i requires 0 <= i < |owners| => if owners[i] == Some(HOST) then None else owners[i]);
  }

  lemma HostKeeps(url: string, connect: bool, t: Table, a: nat, e: nat, p: nat)
    requires Region(url, connect, a, e) && a <= p < e
    requires Tiles(t, HostUpTo(url, connect, p)) && Settled(t, Inner(url, connect, p), p)
    requires !Inner(url, connect, p + 1).HostDead?
    ensures var r := Inner(url, connect, p + 1); var t' := PutPart(t, HostPart(r), p);
      Tiles(t', HostUpTo(url, connect, p + 1)) && Settled(t', r, p + 1)
  {
    hide Outer, HostChar, HostPart, HostLevel, HostLevelOf, Tiles;
    assert Outer(url, connect, p) == Some(HOST);
    var s, r := Inner(url, connect, p), Inner(url, connect, p + 1);
    var owners := HostUpTo(url, connect, p);
    HostCharStep(s, url[p]);
    HostEnters(s, url[p]);
    HostParts(s, url[p]);
    assert HostUpTo(url, connect, p + 1) == owners[p := HostPart(r)];
    if HostPart(r).Some? {
      var f := HostPart(r).value;
      if f in t {
        TilesGrow(t, owners, p, f);
      } else {
        TilesEnter(t, owners, p, f);
      }
    } else {
      assert owners[p := HostPart(r)] == owners;
    }
  }

  lemma HostParts(s: HostState, ch: char)
    requires !HostChar(s, ch).HostDead?
    ensures var r := HostChar(s, ch); var part := HostPart(r);
      && (part.Some? ==> part.value in {HOST, PORT, USERINFO})
      && (part.None? ==> forall f | f in {HOST, PORT, USERINFO} :: HostLevelOf(f) != HostLevel(r))
      && (HostLevelOf(HOST) == 4 && HostLevelOf(PORT) == 7 && HostLevelOf(USERINFO) == 1)
      && (HostLevel(r) >= 4 <==> HostLevel(s) >= 4 || part == Some(HOST))
  {
  }

  lemma HostEnds(url: string, connect: bool, t: Table, a: nat, e: nat)
    requires Region(url, connect, a, e) && Tiles(t, HostUpTo(url, connect, e))
    ensures Tiles(t, AllOwners(url, connect)) && Inner(url, connect, |url|) == Inner(url, connect, e)
  {
    hide Outer, HostPart;
    InnerSkips(url, connect, e, |url|);
    assert HostUpTo(url, connect, e) == AllOwners(url, connect);
  }

  /** The switch of `http_parse_host` for the byte at p, which leads from state s to state r. */
  method CountHost(u: ParserUrl, s: HostState, r: HostState, p: nat, ghost ch: char, ghost t: Table, ghost a: nat)
    requires r == HostChar(s, ch) && !r.HostDead? && HOST in u.fields
    requires (s.Port? ==> PORT in u.fields) && (s.UserInfo? ==> USERINFO in u.fields)
    modifies u`fields
    ensures HOST in u.fields && (r.Port? ==> PORT in u.fields) && (r.UserInfo? ==> USERINFO in u.fields)
    ensures PORT in u.fields ==>
      u.fields[PORT].off <= p || (PORT in old(u.fields) && u.fields[PORT].off == old(u.fields)[PORT].off)
    ensures Settled(t, s, p) && old(u.fields) == Stored(t, a) ==> u.fields == Stored(PutPart(t, HostPart(r), p), a)
  {
    hide HostChar, HostLevel, HostLevelOf, Settled, Stored, Put, Narrow, Narrowed;
    HostEnters(s, ch);
    NarrowNext(p);
    if r.Host? || r.V6? {
      if s != r {
        u.fields := u.fields[HOST := u.fields[HOST].(off := Narrow(p))];
      }
      Lengthen(u, HOST);
    } else if r.ZoneStart? || r.Zone? {
      Lengthen(u, HOST);
    } else if r.Port? {
      if s != r {
        u.fields := u.fields[PORT := Span(Narrow(p), 0)];
      }
      Lengthen(u, PORT);
    } else if r.UserInfo? {
      if s != r {
        u.fields := u.fields[USERINFO := Span(Narrow(p), 0)];
      }
      Lengthen(u, USERINFO);
    }
    if Settled(t, s, p) && old(u.fields) == Stored(t, a) && HostPart(r).Some? {
      Counted(t, s, ch, p, a);
    }
  }

  lemma Counted(t: Table, s: HostState, ch: char, p: nat, a: nat)
    requires Settled(t, s, p) && !HostChar(s, ch).HostDead? && HostPart(HostChar(s, ch)).Some?
    ensures var r := HostChar(s, ch); var f := HostPart(r).value; var u := Stored(t, a);
      && HOST in u
      && (HostLevel(s) < HostLevel(r) ==>
            && Narrow(0 + 1) == 1 && (f == HOST ==> u[HOST].len == 0)
            && u[f := Span(Narrow(p), 1)] == Stored(Put(t, f, p), a))
      && (HostLevel(s) == HostLevel(r) ==>
            f in u && u[f := Span(u[f].off, Narrow(u[f].len + 1))] == Stored(Put(t, f, p), a))
      && HostLevel(s) <= HostLevel(r)
  {
    hide HostChar, HostPart, HostLevel, HostLevelOf, Stored, Put, Narrowed;
    var r := HostChar(s, ch);
    var f := HostPart(r).value;
    HostEnters(s, ch);
    HostParts(s, ch);
    HostCharStep(s, ch);
    StoredHost(t, a);
    if f in t {
      StoredGrows(t, f, p, a);
    } else {
      StoredEnters(t, f, p, a);
    }
  }

  lemma StoredHost(t: Table, a: nat)
    ensures HOST in Stored(t, a) && (HOST !in t ==> Stored(t, a)[HOST].len == 0) && Narrow(1) == 1
  {
  }

  lemma StoredEnters(t: Table, f: Field, p: nat, a: nat)
    requires f !in t
    ensures Stored(t, a)[f := Span(Narrow(p), 1)] == Stored(Put(t, f, p), a)
  {
  }

  lemma StoredGrows(t: Table, f: Field, p: nat, a: nat)
    requires f in t
    ensures f in Stored(t, a)
    ensures var u := Stored(t, a); u[f := Span(u[f].off, Narrow(u[f].len + 1))] == Stored(Put(t, f, p), a)
  {
    NarrowNext(t[f].len);
  }

  method Lengthen(u: ParserUrl, f: Field)
    requires f in u.fields
    modifies u`fields
    ensures u.fields == old(u.fields)[f := Span(old(u.fields)[f].off, Narrow(old(u.fields)[f].len + 1))]
  {
    u.fields := u.fields[f := u.fields[f].(len := Narrow(u.fields[f].len + 1))];
  }

  /** The stored table is that of the outer loop, and the server part ends within 16 bits. */
  ghost predicate Ready(url: string, connect: bool, u: Table, t: Table, foundAt: bool) {
    && Tiles(t, OuterUpTo(url, connect, |url|)) && u == Narrowed(t) && foundAt == FoundAt(url, connect, |url|)
    && HOST in t && PORT !in t && USERINFO !in t && t[HOST].off + t[HOST].len <= 0xFFFF
  }

  /** `http_parse_host`, which never reads outside the entry of the host. */
  method ParseHost(url: string, ghost connect: bool, u: ParserUrl, foundAt: bool, ghost outer: Table)
    returns (ok: bool, ghost t: Table)
    requires HOST in u.fields && PORT !in u.fields && u.fields[HOST].off + u.fields[HOST].len <= |url|
    modifies u`fields
    ensures HOST in u.fields && (PORT in u.fields ==> u.fields[PORT].off <= |url|)
    ensures Ready(url, connect, old(u.fields), outer, foundAt) ==>
      && (ok <==> Complete(Inner(url, connect, |url|)))
      && (ok ==> Tiles(t, AllOwners(url, connect)) && HOST in t && u.fields == Narrowed(t))
  {
    hide HostChar, Outer, Tiles, Region, Settled, Stored, PutPart, Inner, FoundAt, Unfinished;
    ghost var nice := Ready(url, connect, u.fields, outer, foundAt);
    var a, e := u.fields[HOST].off, u.fields[HOST].off + u.fields[HOST].len;
    if nice {
      ReadyBegins(url, connect, u.fields, outer, foundAt);
    }
    t := outer - {HOST};
    u.fields := u.fields[HOST := u.fields[HOST].(len := 0)];
    var s := if foundAt then UserInfoStart else HostStart;
    for p := a to e
      invariant HOST in u.fields && (s.Port? ==> PORT in u.fields) && (s.UserInfo? ==> USERINFO in u.fields)
      invariant PORT in u.fields ==> u.fields[PORT].off <= |url|
      invariant nice ==> s == Inner(url, connect, p) && Tiles(t, HostUpTo(url, connect, p)) && Settled(t, s, p)
      invariant nice ==> u.fields == Stored(t, a)
    {
      var r := HostChar(s, url[p]);
      if nice {
        InnerNext(url, connect, a, e, p);
      }
      if r.HostDead? {
        if nice {
          InnerStaysDead(url, connect, p + 1, |url|);
        }
        ok := false;
        return;
      }
      CountHost(u, s, r, p, url[p], t, a);
      if nice {
        HostKeeps(url, connect, t, a, e, p);
      }
      t := PutPart(t, HostPart(r), p);
      s := r;
    }
    if nice {
      HostEnds(url, connect, t, a, e);
      CompleteHost(t, s, e, a);
    }
    ok := !Unfinished(s);
  }

  /** The states in which the server part may end. */
  predicate Complete(s: HostState) {
    !s.HostDead? && !Unfinished(s)
  }

  lemma ReadyBegins(url: string, connect: bool, u: Table, t: Table, foundAt: bool)
    requires Ready(url, connect, u, t, foundAt)
    ensures var a := u[HOST].off; var e := a + u[HOST].len; var s := if foundAt then UserInfoStart else HostStart;
      && Region(url, connect, a, e) && Inner(url, connect, a) == s
      && Tiles(t - {HOST}, HostUpTo(url, connect, a)) && Settled(t - {HOST}, s, a)
      && u[HOST := u[HOST].(len := 0)] == Stored(t - {HOST}, a)
  {
    hide Tiles, Outer, Region, Settled, Inner, FoundAt;
    HostBegins(url, connect, t, foundAt);
    assert t[HOST].off == u[HOST].off;
  }

  lemma InnerNext(url: string, connect: bool, a: nat, e: nat, p: nat)
    requires Region(url, connect, a, e) && a <= p < e
    ensures Inner(url, connect, p + 1) == HostChar(Inner(url, connect, p), url[p])
  {
    hide Outer, HostChar;
  }

  lemma CompleteHost(t: Table, s: HostState, p: nat, a: nat)
    requires Settled(t, s, p)
    ensures !Unfinished(s) ==> HOST in t && Stored(t, a) == Narrowed(t)
    ensures Complete(s) <==> !Unfinished(s)
  {
  }

  // ----- the whole splitter -----

  function Lead(s: string): (r: string)
    ensures |r| <= |s| && s[..|r|] == r && forall i | 0 <= i < |r| :: IsNum(r[i])
  {
    if s == "" || !IsNum(s[0]) then "" else [s[0]] + Lead(s[1..])
  }

  const ULONG_MAX := 0xFFFF_FFFF_FFFF_FFFF

  function Digits(s: string): nat {
    var v := Decimal(Lead(s));
    if v > ULONG_MAX then ULONG_MAX else v
  }

  /** `strtoul` to the base 10. */
  function StrToUL(s: string): nat {
    if s == "" then 0
    else if s[0] == ' ' || '\t' as int <= s[0] as int <= CR as int then StrToUL(s[1..])
    else if s[0] == '+' then Digits(s[1..])
    else if s[0] == '-' then
      var v := Digits(s[1..]);
      if v == 0 || v == ULONG_MAX then v else ULONG_MAX + 1 - v
    else Digits(s)
  }

  function FirstOf(owners: Owners, f: Field): (k: nat)
    ensures k <= |owners|
  {
    if owners == [] || owners[0] == Some(f) then 0 else 1 + FirstOf(owners[1..], f)
  }

  /**
   The URLs that can be split: both automata accept, a scheme has a server, a CONNECT target is a host and a port,
   and the number at the port, read on into the memory `beyond` the buffer, is a port number.
   */
  ghost predicate Accepts(url: string, connect: bool, beyond: string) {
    var outer, all := OuterUpTo(url, connect, |url|), AllOwners(url, connect);
    && !Walk(url, connect, |url|).Dead?
    && (Owns(outer, SCHEMA) ==> Owns(outer, HOST))
    && (Owns(outer, HOST) ==> Complete(Inner(url, connect, |url|)))
    && (connect ==> forall f: Field :: Owns(all, f) <==> f == HOST || f == PORT)
    && (Owns(all, PORT) ==> StrToUL(url[FirstOf(all, PORT)..] + beyond) <= 0xFFFF)
  }

  /** The server part ends within 16 bits. */
  ghost predicate ServerFits(url: string, connect: bool) {
    forall i | 0 <= i < |url| && Outer(url, connect, i) == Some(HOST) :: i < 0xFFFF
  }

  lemma TilesOwns(t: Table, owners: Owners)
    requires Tiles(t, owners)
    ensures forall f: Field :: Owns(owners, f) <==> f in t
  {
    forall f: Field
      ensures Owns(owners, f) <==> f in t
    {
      if f in t {
        assert Entry(t, f, owners);
        assert owners[t[f].off] == Some(f);
      }
    }
  }

  lemma {:induction false} FirstIs(owners: Owners, f: Field, k: nat)
    requires k < |owners| && owners[k] == Some(f) && forall i | 0 <= i < k :: owners[i] != Some(f)
    ensures FirstOf(owners, f) == k
  {
    if k > 0 {
      FirstIs(owners[1..], f, k - 1);
    }
  }

  lemma TilesFirst(t: Table, owners: Owners, f: Field)
    requires Tiles(t, owners) && f in t
    ensures t[f].off == FirstOf(owners, f) < |owners|
  {
    assert Entry(t, f, owners);
    FirstIs(owners, f, t[f].off);
  }

  /** Without a server part the owners are those of the outer automaton. */
  lemma NoHost(url: string, connect: bool)
    requires !Owns(OuterUpTo(url, connect, |url|), HOST)
    ensures AllOwners(url, connect) == OuterUpTo(url, connect, |url|)
  {
    hide Outer;
    var outer := OuterUpTo(url, connect, |url|);
    assert forall i | 0 <= i < |url| :: outer[i] == Outer(url, connect, i) && outer[i] in outer;
  }

  /** The entry of the server part as the outer loop stores it. */
  lemma HostEntry(url: string, connect: bool, t: Table)
    requires Tiles(t, OuterUpTo(url, connect, |url|)) && HOST in t
    ensures Narrowed(t)[HOST].off + Narrowed(t)[HOST].len <= |url|
    ensures ServerFits(url, connect) ==> t[HOST].off + t[HOST].len <= 0xFFFF
  {
    hide Outer;
    var owners := OuterUpTo(url, connect, |url|);
    assert Entry(t, HOST, owners);
    NarrowNext(t[HOST].off);
    NarrowNext(t[HOST].len);
    var last := t[HOST].off + t[HOST].len - 1;
    assert owners[last] == Outer(url, connect, last);
  }

  /**
   `http_parser_parse_url`: succeeds exactly on the URLs that can be split, and then the table is, to 16 bits, that
   of the owners of the bytes, and the port is the number at its entry.
   */
  method ParseUrl(url: string, connect: bool, u: ParserUrl, beyond: string) returns (ok: bool, ghost t: Table)
    modifies u
    ensures ServerFits(url, connect) ==> (ok <==> Accepts(url, connect, beyond))
    ensures ServerFits(url, connect) && ok ==> Tiles(t, AllOwners(url, connect)) && u.fields == Narrowed(t)
    ensures ok && SCHEMA in u.fields ==> HOST in u.fields
    ensures ServerFits(url, connect) && ok ==>
      u.port == if PORT in t then StrToUL(url[FirstOf(AllOwners(url, connect), PORT)..] + beyond) else 0
  {
    hide Tiles, Walk, Outer, Inner, Complete, StrToUL, FoundAt, OuterUpTo, AllOwners, Narrowed, Narrow, Owns,
      ServerFits;
    ghost var nice := ServerFits(url, connect);
    var foundAt;
    ok, foundAt, t := Scan(url, connect, u);
    if !ok {
      return;
    }
    TilesOwns(t, OuterUpTo(url, connect, |url|));
    if SCHEMA in u.fields && HOST !in u.fields {
      ok := false;
      return;
    }
    if HOST in u.fields {
      HostEntry(url, connect, t);
      ok, t := ParseHost(url, connect, u, foundAt, t);
      if !ok {
        return;
      }
    } else {
      NoHost(url, connect);
    }
    if nice {
      TilesOwns(t, AllOwners(url, connect));
    }
    if connect && u.fields.Keys != {HOST, PORT} {
      ok := false;
      return;
    }
    if PORT in u.fields {
      if nice {
        TilesFirst(t, AllOwners(url, connect), PORT);
        PortFits(url, connect, t);
      }
      var v := StrToUL(url[u.fields[PORT].off..] + beyond);
      if v > 0xFFFF {
        ok := false;
        return;
      }
      u.port := v;
    }
  }

  /** The port lies in the server part. */
  lemma PortFits(url: string, connect: bool, t: Table)
    requires ServerFits(url, connect) && Tiles(t, AllOwners(url, connect)) && PORT in t
    ensures Narrowed(t)[PORT].off == t[PORT].off
  {
    hide Walk, Inner, Outer;
    assert Entry(t, PORT, AllOwners(url, connect));
    assert AllOwners(url, connect)[t[PORT].off] == Owner(url, connect, t[PORT].off);
    OuterNoPort(url, connect, t[PORT].off);
  }

  /** Only the second loop finds ports. */
  lemma OuterNoPort(url: string, connect: bool, i: nat)
    requires i < |url|
    ensures Outer(url, connect, i) != Some(PORT)
  {
    hide Walk;
  }

  // ----- what a successful split looks like -----

  /** The order in which fields appear in a URL. */
  function Order(f: Field): nat {
    match f
    case SCHEMA => 0
    case USERINFO => 1
    case HOST => 2
    case PORT => 3
    case PATH => 4
    case QUERY => 5
    case FRAGMENT => 6
  }

  /** Both automata accept. */
  ghost predicate Alive(url: string, connect: bool) {
    !Walk(url, connect, |url|).Dead? && !Inner(url, connect, |url|).HostDead?
  }

  lemma AcceptsAlive(url: string, connect: bool, beyond: string)
    requires Accepts(url, connect, beyond)
    ensures Alive(url, connect)
  {
    hide Walk, Outer;
    var outer := OuterUpTo(url, connect, |url|);
    if !Owns(outer, HOST) {
      assert forall i | 0 <= i < |url| :: outer[i] == Outer(url, connect, i) && outer[i] in outer;
      InnerSkips(url, connect, 0, |url|);
    }
  }

  lemma {:induction false} InnerLevels(url: string, connect: bool, m: nat, n: nat)
    requires m <= n <= |url| && !Inner(url, connect, n).HostDead?
    ensures HostLevel(Inner(url, connect, m)) <= HostLevel(Inner(url, connect, n))
  {
    hide HostChar, HostLevel, Outer;
    if m < n {
      HostCharStep(Inner(url, connect, n - 1), url[n - 1]);
      InnerLevels(url, connect, m, n - 1);
    }
  }

  /** The server part of byte i, if it has an owner. */
  lemma OwnerLevels(url: string, connect: bool, i: nat)
    requires Alive(url, connect) && i < |url| && Owner(url, connect, i).Some?
    ensures var f := Owner(url, connect, i).value;
      && LevelOf(f) == Level(Walk(url, connect, i + 1))
      && (LevelOf(f) == 3 ==> f in {HOST, PORT, USERINFO} && HostLevelOf(f) == HostLevel(Inner(url, connect, i + 1)))
  {
    hide ParseUrlChar, HostChar, Inner, Walk, UrlState;
    WalkLevels(url, connect, i + 1, |url|);
    PartIsThree(Walk(url, connect, i + 1));
    if Outer(url, connect, i) == Some(HOST) {
      InnerAlive(url, connect, i + 1);
      PartIsFour(Inner(url, connect, i + 1));
    }
  }

  lemma PartIsThree(s: State)
    requires UrlState(s)
    ensures PartOf(s).Some? ==> LevelOf(PartOf(s).value) == Level(s) && (PartOf(s) == Some(HOST) <==> Level(s) == 3)
  {
  }

  lemma PartIsFour(s: HostState)
    requires HostPart(s).Some?
    ensures var f := HostPart(s).value; f in {HOST, PORT, USERINFO} && LevelOf(f) == 3 && HostLevelOf(f) == HostLevel(s)
  {
  }

  lemma InnerAlive(url: string, connect: bool, n: nat)
    requires n <= |url| && !Inner(url, connect, |url|).HostDead?
    ensures !Inner(url, connect, n).HostDead?
  {
    if Inner(url, connect, n).HostDead? {
      InnerStaysDead(url, connect, n, |url|);
    }
  }

  /** Owners come in order. */
  lemma OwnersOrdered(url: string, connect: bool, i: nat, j: nat)
    requires Alive(url, connect) && i < j < |url| && Owner(url, connect, i).Some? && Owner(url, connect, j).Some?
    ensures Order(Owner(url, connect, i).value) <= Order(Owner(url, connect, j).value)
  {
    hide ParseUrlChar, HostChar, Inner, Walk, Owner, Level, HostLevel;
    OwnerLevels(url, connect, i);
    OwnerLevels(url, connect, j);
    WalkAlive(url, connect, j + 1);
    WalkLevels(url, connect, i + 1, j + 1);
    InnerAlive(url, connect, j + 1);
    InnerLevels(url, connect, i + 1, j + 1);
  }

  lemma WalkAlive(url: string, connect: bool, n: nat)
    requires n <= |url| && !Walk(url, connect, |url|).Dead?
    ensures !Walk(url, connect, n).Dead?
  {
    if Walk(url, connect, n).Dead? {
      StaysDead(url, connect, n, |url|);
    }
  }

  /** Bytes without an owner are delimiters. */
  lemma UnownedDelimits(url: string, connect: bool, i: nat)
    requires Alive(url, connect) && i < |url| && Owner(url, connect, i).None?
    ensures IsDelimiter(url[i])
  {
    hide ParseUrlChar, HostChar, PartOf, HostPart, IsDelimiter, UrlState, Level, HostLevel;
    WalkAlive(url, connect, i + 1);
    WalkLevels(url, connect, i, i + 1);
    UrlCharStep(Walk(url, connect, i), url[i]);
    InnerAlive(url, connect, i + 1);
    HostCharStep(Inner(url, connect, i), url[i]);
  }

  /** The fields set are non-empty and within the buffer. */
  ghost predicate InBounds(t: Table, n: nat) {
    forall f | f in t :: 0 < t[f].len && t[f].off + t[f].len <= n
  }

  /** The fields set are disjoint and in the order of URLs. */
  ghost predicate InOrder(t: Table) {
    forall f, g | f in t && g in t && Order(f) < Order(g) :: t[f].off + t[f].len <= t[g].off
  }

  predicate Covers(t: Table, i: nat) {
    exists f :: f in t && t[f].off <= i < t[f].off + t[f].len
  }

  /** Every byte outside the fields is a delimiter. */
  ghost predicate GapsDelimit(t: Table, url: string) {
    forall i | 0 <= i < |url| && !Covers(t, i) :: IsDelimiter(url[i])
  }

  lemma Bounded(t: Table, owners: Owners)
    requires Tiles(t, owners)
    ensures InBounds(t, |owners|) && (|owners| <= 0xFFFF ==> Narrowed(t) == t)
  {
    forall f | f in t
      ensures 0 < t[f].len && t[f].off + t[f].len <= |owners|
    {
      EntryOf(t, owners, f);
    }
  }

  /**
   After a success the fields set are non-empty, within the buffer, disjoint and in the order of URLs; every byte
   outside them is a delimiter; and CONNECT sets exactly host and port. Up to 65535 bytes the table stored is that
   table.
   */
  lemma Layout(url: string, connect: bool, beyond: string, t: Table)
    requires Accepts(url, connect, beyond) && Tiles(t, AllOwners(url, connect))
    ensures InBounds(t, |url|) && InOrder(t) && GapsDelimit(t, url)
    ensures connect ==> t.Keys == {HOST, PORT}
    ensures |url| <= 0xFFFF ==> ServerFits(url, connect) && Narrowed(t) == t
  {
    hide Walk, Inner, Owner, StrToUL, Order, IsDelimiter, FirstOf, Outer, Tiles, Narrowed, Alive, AllOwners, Complete,
      OuterUpTo, Covers, InBounds, Owns;
    AcceptsAlive(url, connect, beyond);
    Bounded(t, AllOwners(url, connect));
    forall f, g | f in t && g in t && Order(f) < Order(g)
      ensures t[f].off + t[f].len <= t[g].off
    {
      FieldsApart(url, connect, t, f, g);
    }
    forall i | 0 <= i < |url| && !Covers(t, i)
      ensures IsDelimiter(url[i])
    {
      Uncovered(url, connect, t, i);
    }
    TilesOwns(t, AllOwners(url, connect));
  }

  lemma EntryOf(t: Table, owners: Owners, f: Field)
    requires Tiles(t, owners) && f in t
    ensures Entry(t, f, owners)
  {
  }

  lemma FieldsApart(url: string, connect: bool, t: Table, f: Field, g: Field)
    requires Alive(url, connect) && Tiles(t, AllOwners(url, connect)) && f in t && g in t && Order(f) < Order(g)
    ensures t[f].off + t[f].len <= t[g].off
  {
    hide Walk, Inner, Owner, Tiles, Alive, Order;
    var owners := AllOwners(url, connect);
    EntryOf(t, owners, f);
    EntryOf(t, owners, g);
    var i, j := t[f].off + t[f].len - 1, t[g].off;
    assert owners[i] == Some(f) && owners[j] == Some(g);
    if j < i {
      OwnersOrdered(url, connect, j, i);
    }
  }

  lemma Uncovered(url: string, connect: bool, t: Table, i: nat)
    requires Alive(url, connect) && Tiles(t, AllOwners(url, connect)) && i < |url| && !Covers(t, i)
    ensures IsDelimiter(url[i])
  {
    hide Walk, Inner, Owner, Alive, IsDelimiter;
    var owners := AllOwners(url, connect);
    assert forall f | f in t :: Entry(t, f, owners);
    UnownedDelimits(url, connect, i);
  }

  /** A path of n slashes is accepted; the table stored is right if and only if n fits in 16 bits. */
  lemma SlashPath(n: nat, beyond: string)
    requires n > 0
    ensures var url := seq(n, i => '/'); var t: Table := map[PATH := Span(0, n)];
      && Accepts(url, false, beyond) && ServerFits(url, false) && Tiles(t, AllOwners(url, false))
      && (Narrowed(t) == t <==> n <= 0xFFFF)
  {
    hide ParseUrlChar, Inner, StrToUL, FirstOf;
    var url := seq(n, i => '/');
    var t: Table := map[PATH := Span(0, n)];
    forall i | 0 <= i < n
      ensures Outer(url, false, i) == Some(PATH)
    {
      SlashWalk(url, i + 1);
    }
    SlashWalk(url, n);
    var all := AllOwners(url, false);
    assert forall i | 0 <= i < n :: all[i] == Some(PATH);
    assert Entry(t, PATH, all);
    TilesOwns(t, all);
    assert OuterUpTo(url, false, n) == all;
    assert Narrowed(t)[PATH] == Span(0, Narrow(n));
  }

  lemma {:induction false} SlashWalk(url: string, n: nat)
    requires 0 < n <= |url| && forall i | 0 <= i < |url| :: url[i] == '/'
    ensures Walk(url, false, n).Path?
  {
    if n > 1 {
      SlashWalk(url, n - 1);
    }
  }

  // ----- the port number -----

  lemma {:induction false} LeadIs(s: string, k: nat)
    requires k <= |s| && (forall i | 0 <= i < k :: IsNum(s[i])) && (k == |s| || !IsNum(s[k]))
    ensures Lead(s) == s[..k]
  {
    if k > 0 {
      LeadIs(s[1..], k - 1);
      assert s[..k] == [s[0]] + s[1..][..k - 1];
    }
  }

  lemma PortBytes(url: string, connect: bool, i: nat)
    requires Alive(url, connect) && i < |url| && Owner(url, connect, i) == Some(PORT)
    ensures IsNum(url[i]) && Outer(url, connect, i) == Some(HOST) && Inner(url, connect, i + 1).Port?
  {
    hide Walk;
  }

  /** The byte after the port is not a digit. */
  lemma PortStops(url: string, connect: bool, i: nat)
    requires Alive(url, connect) && i + 1 < |url|
    requires Owner(url, connect, i) == Some(PORT) && Owner(url, connect, i + 1) != Some(PORT)
    ensures !IsNum(url[i + 1])
  {
    hide ParseUrlChar, HostChar;
    PortBytes(url, connect, i);
    DigitStays(Walk(url, connect, i + 1), Inner(url, connect, i + 1), url[i + 1]);
  }

  lemma DigitStays(s: State, h: HostState, ch: char)
    requires PartOf(s) == Some(HOST) && h.Port?
    ensures IsNum(ch) ==> PartOf(ParseUrlChar(s, ch)) == Some(HOST) && HostChar(h, ch).Port?
  {
  }

  /**
   The number read at the port is the decimal value of exactly the bytes of the port, if the memory after the buffer
   does not begin with a digit or the port does not end the buffer; it is then a port number if and only if the value
   is.
   */
  lemma PortNumber(url: string, connect: bool, beyond: string, t: Table)
    requires Alive(url, connect) && Tiles(t, AllOwners(url, connect)) && PORT in t
    requires t[PORT].off + t[PORT].len < |url| || beyond == "" || !IsNum(beyond[0])
    ensures t[PORT].off == FirstOf(AllOwners(url, connect), PORT) && t[PORT].off + t[PORT].len <= |url|
    ensures var digits := url[t[PORT].off..t[PORT].off + t[PORT].len]; var v := StrToUL(url[t[PORT].off..] + beyond);
      && (forall i | 0 <= i < |digits| :: IsNum(digits[i]))
      && (v == Decimal(digits) || (v == ULONG_MAX && Decimal(digits) > ULONG_MAX))
  {
    hide Walk, Inner, Owner, FirstOf, Lead, Decimal, Outer, Alive, Tiles, Narrowed;
    var owners := AllOwners(url, connect);
    TilesFirst(t, owners, PORT);
    EntryOf(t, owners, PORT);
    var a, e := t[PORT].off, t[PORT].off + t[PORT].len;
    forall i | a <= i < e
      ensures IsNum(url[i])
    {
      assert owners[i] == Some(PORT);
      PortBytes(url, connect, i);
    }
    if e < |url| {
      assert owners[e - 1] == Some(PORT) && owners[e] != Some(PORT);
      PortStops(url, connect, e - 1);
    }
    var s := url[a..] + beyond;
    assert forall i | 0 <= i < e - a :: s[i] == url[a + i];
    assert e < |url| ==> s[e - a] == url[e];
    assert e == |url| && beyond != "" ==> s[e - a] == beyond[0];
    LeadIs(s, e - a);
    assert s[..e - a] == url[a..e];
    NumberAtDigit(s);
  }

  lemma NumberAtDigit(s: string)
    requires s != "" && IsNum(s[0])
    ensures StrToUL(s) == Digits(s)
  {
  }
}
