/** The AI provider configuration, kept sealed in the database and open in the bridge's memory. */
module AISettings {
  import opened Text

  datatype Provider = OpenAI | OpenRouter | Unknown(name: string)

  /** What the client sends as toolsets: nothing, a list of strings, or anything else. */
  datatype Toolsets = Absent | Listed(names: seq<string>) | Malformed

  /** A key sealed under one encryption key; the nonce makes each sealing different. */
  datatype Sealed = Sealed(under: nat, plain: string, nonce: nat)

  datatype Setting = Setting(provider: Provider, model: string, baseURL: Option<string>, key: Sealed, toolsets: Toolsets, active: bool)

  /** What the bridge is configured with. */
  datatype Config = Config(provider: Provider, model: string, baseURL: Option<string>, apiKey: string, toolsets: Option<seq<string>>)

  datatype Request = Request(provider: Provider, model: string, baseURL: Option<string>, apiKey: Option<string>, toolsets: Toolsets)

  datatype Failure = Unavailable | InvalidProvider | ReadFailed | KeyRequired | KeyUnreadable | Rejected | EncryptFailed | WriteFailed

  datatype Outcome = Ok | Err(failure: Failure)

  /** The faults of one call. A rejected push leaves the bridge as it was. */
  datatype Weather = Weather(readFails: bool, pushFails: bool, encryptFails: bool, writeFails: bool, rollbackFails: bool)

  /** `bridge` is none while it runs on its defaults. */
  datatype State = State(rows: seq<Setting>, bridge: Option<Config>)

  function ParseToolsets(raw: Toolsets): Option<seq<string>> {
    if raw.Listed? then Some(raw.names) else None
  }

  function Decrypt(key: Sealed, encKey: nat): Option<string> {
    if key.under == encKey then Some(key.plain) else None
  }

  /** The active row, the first one if there were several. */
  function Active(rows: seq<Setting>): Option<Setting> {
    if rows == [] then None else if rows[0].active then Some(rows[0]) else Active(rows[1..])
  }

  /** `Upsert`: every active row is switched off, and the new one goes in switched on. */
  function Deactivated(rows: seq<Setting>): seq<Setting> {
    seq(|rows|, i requires 0 <= i < |rows| => rows[i].(active := false))
  }

  function Upserted(rows: seq<Setting>, setting: Setting): seq<Setting> {
    Deactivated(rows) + [setting.(active := true)]
  }

  function ConfigWith(s: Setting, plain: string): Config {
    Config(s.provider, s.model, s.baseURL, plain, ParseToolsets(s.toolsets))
  }

  /** A blank key means: keep the one there is. */
  predicate Blank(apiKey: Option<string>) {
    apiKey.None? || apiKey.value == ""
  }

  datatype Resolved = Key(plain: string) | NoKey(failure: Failure)

  function ResolveKey(current: Option<Setting>, apiKey: Option<string>, encKey: nat): Resolved {
    if !Blank(apiKey) then Key(apiKey.value)
    else if current.None? then NoKey(KeyRequired)
    else
      var plain := Decrypt(current.value.key, encKey);
      if plain.None? then NoKey(KeyUnreadable) else Key(plain.value)
  }

  function SettingOf(req: Request, plain: string, encKey: nat, nonce: nat): Setting {
    Setting(req.provider, req.model, req.baseURL, Sealed(encKey, plain, nonce), req.toolsets, false)
  }

  // ----- the calls, on values -----

  function RolledBack(bridge: Option<Config>, prev: Option<Setting>, encKey: nat, fails: bool): Option<Config> {
    if prev.None? || Decrypt(prev.value.key, encKey).None? || fails then bridge
    else Some(ConfigWith(prev.value, prev.value.key.plain))
  }

  function Updated(s: State, encKey: Option<nat>, req: Request, nonce: nat, w: Weather): (State, Outcome) {
    if encKey.None? then (s, Err(Unavailable))
    else if req.provider.Unknown? then (s, Err(InvalidProvider))
    else if w.readFails then (s, Err(ReadFailed))
    else
      var prev := Active(s.rows);
      var key := ResolveKey(prev, req.apiKey, encKey.value);
      if key.NoKey? then (s, Err(key.failure))
      else if w.pushFails then (s, Err(Rejected))
      else
        var setting := SettingOf(req, key.plain, encKey.value, nonce);
        var pushed := Some(ConfigWith(setting, key.plain));
        if w.encryptFails then (State(s.rows, RolledBack(pushed, prev, encKey.value, w.rollbackFails)), Err(EncryptFailed))
        else if w.writeFails then (State(s.rows, RolledBack(pushed, prev, encKey.value, w.rollbackFails)), Err(WriteFailed))
        else (State(Upserted(s.rows, setting), pushed), Ok)
  }

  function Rehydrated(s: State, encKey: Option<nat>, w: Weather): (State, bool) {
    var active := Active(s.rows);
    if encKey.None? || w.readFails || active.None? || Decrypt(active.value.key, encKey.value).None? || w.pushFails then (s, false)
    else (State(s.rows, Some(ConfigWith(active.value, active.value.key.plain))), true)
  }

  // ----- the service -----

  class AISettingService {
    const encKey: Option<nat>
    var rows: seq<Setting>
    var bridge: Option<Config>

    constructor (encKey: Option<nat>)
      ensures rows == [] && bridge == None && this.encKey == encKey
    {
      this.encKey, rows, bridge := encKey, [], None;
    }

    function Now(): State
      reads this
    {
      State(rows, bridge)
    }

    /** A push the bridge may reject, leaving it as it was. */
    method Configure(config: Config, fails: bool) returns (ok: bool)
      modifies this`bridge
      ensures ok == !fails && bridge == (if ok then Some(config) else old(bridge))
    {
      ok := !fails;
      if ok {
        bridge := Some(config);
      }
    }

    method RollbackBridge(prev: Option<Setting>, fails: bool)
      requires encKey.Some?
      modifies this`bridge
      ensures bridge == RolledBack(old(bridge), prev, encKey.value, fails)
    {
      if prev.None? {
        return;
      }
      var plain := Decrypt(prev.value.key, encKey.value);
      if plain.None? {
        return;
      }
      var ok := Configure(ConfigWith(prev.value, plain.value), fails);
    }

    /** The bridge is pushed first, the row is written once the bridge has accepted, and a failed
        write rolls the bridge back. */
    method Update(req: Request, nonce: nat, w: Weather) returns (r: Outcome)
      modifies this
      ensures (Now(), r) == Updated(old(Now()), encKey, req, nonce, w)
    {
      if encKey.None? {
        return Err(Unavailable);
      }
      if req.provider.Unknown? {
        return Err(InvalidProvider);
      }
      if w.readFails {
        return Err(ReadFailed);
      }
      var prev := Active(rows);
      var key := ResolveKey(prev, req.apiKey, encKey.value);
      if key.NoKey? {
        return Err(key.failure);
      }
      var accepted := Configure(Config(req.provider, req.model, req.baseURL, key.plain, ParseToolsets(req.toolsets)), w.pushFails);
      if !accepted {
        return Err(Rejected);
      }
      if w.encryptFails {
        RollbackBridge(prev, w.rollbackFails);
        return Err(EncryptFailed);
      }
      if w.writeFails {
        RollbackBridge(prev, w.rollbackFails);
        return Err(WriteFailed);
      }
      rows := Upserted(rows, SettingOf(req, key.plain, encKey.value, nonce));
      return Ok;
    }

    method Rehydrate(w: Weather) returns (pushed: bool)
      modifies this
      ensures (Now(), pushed) == Rehydrated(old(Now()), encKey, w)
    {
      if encKey.None? || w.readFails {
        return false;
      }
      var active := Active(rows);
      if active.None? {
        return false;
      }
      var plain := Decrypt(active.value.key, encKey.value);
      if plain.None? {
        return false;
      }
      pushed := Configure(ConfigWith(active.value, plain.value), w.pushFails);
    }
  }

  // ----- the two copies agree -----

  /** The bridge runs the active row, under the very key that is sealed in it; without an active row
      it runs on its defaults. */
  predicate InSync(s: State) {
    var active := Active(s.rows);
    s.bridge == if active.Some? then Some(ConfigWith(active.value, active.value.key.plain)) else None
  }

  lemma {:induction false} ActiveSnoc(rows: seq<Setting>, last: Setting)
    requires forall i :: 0 <= i < |rows| ==> !rows[i].active
    ensures Active(rows + [last]) == if last.active then Some(last) else None
  {
    if rows == [] {
      assert rows + [last] == [last];
    } else {
      assert (rows + [last])[1..] == rows[1..] + [last];
      ActiveSnoc(rows[1..], last);
    }
  }

  lemma UpsertedIsActive(rows: seq<Setting>, setting: Setting)
    ensures Active(Upserted(rows, setting)) == Some(setting.(active := true))
  {
    ActiveSnoc(Deactivated(rows), setting.(active := true));
  }

  /** Why an update that fails after its push cannot put the bridge back. */
  predicate CannotRollBack(s: State, encKey: nat, w: Weather) {
    var prev := Active(s.rows);
    prev.None? || Decrypt(prev.value.key, encKey).None? || w.rollbackFails
  }

  /** The update got as far as the bridge and lost the row after it. */
  predicate LostAfterPush(s: State, encKey: Option<nat>, req: Request, w: Weather) {
    && encKey.Some? && !req.provider.Unknown? && !w.readFails
    && ResolveKey(Active(s.rows), req.apiKey, encKey.value).Key?
    && !w.pushFails && (w.encryptFails || w.writeFails)
  }

  /** What the update pushes. */
  function PushedBy(s: State, encKey: nat, req: Request): Config
    requires ResolveKey(Active(s.rows), req.apiKey, encKey).Key?
  {
    Config(req.provider, req.model, req.baseURL, ResolveKey(Active(s.rows), req.apiKey, encKey).plain, ParseToolsets(req.toolsets))
  }

  /** From copies that agree, an update leaves both new when it succeeds and both old when it fails,
      except exactly when it lost the row after the push and could not roll back: then the bridge
      alone runs what was pushed, and the copies differ unless that is what ran before. */
  lemma UpdateIsAllOrNothing(s: State, encKey: Option<nat>, req: Request, nonce: nat, w: Weather)
    requires InSync(s)
    ensures var (t, r) := Updated(s, encKey, req, nonce, w);
            if r.Ok? then
              InSync(t) && encKey.Some? && ResolveKey(Active(s.rows), req.apiKey, encKey.value).Key?
              && t.bridge == Some(PushedBy(s, encKey.value, req))
            else if LostAfterPush(s, encKey, req, w) && CannotRollBack(s, encKey.value, w) then
              t == State(s.rows, Some(PushedBy(s, encKey.value, req)))
            else t == s
  {
    if encKey.Some? {
      var key := ResolveKey(Active(s.rows), req.apiKey, encKey.value);
      if key.Key? {
        UpsertedIsActive(s.rows, SettingOf(req, key.plain, encKey.value, nonce));
      }
    }
  }

  lemma DivergesOnlyWhenStuck(s: State, encKey: Option<nat>, req: Request, nonce: nat, w: Weather)
    requires InSync(s)
    ensures !InSync(Updated(s, encKey, req, nonce, w).0) <==>
              && LostAfterPush(s, encKey, req, w) && CannotRollBack(s, encKey.value, w)
              && s.bridge != Some(PushedBy(s, encKey.value, req))
  {
    UpdateIsAllOrNothing(s, encKey, req, nonce, w);
  }

  /** From any state at all, a rehydrate that pushes makes the copies agree. */
  lemma RehydrateRestores(s: State, encKey: Option<nat>, w: Weather)
    requires Rehydrated(s, encKey, w).1
    ensures InSync(Rehydrated(s, encKey, w).0) && Rehydrated(s, encKey, w).0.rows == s.rows
  {
  }

  // ----- when a call succeeds, and what it then leaves -----

  /** Row `i` is the active one. */
  ghost predicate IsActive(rows: seq<Setting>, i: nat) {
    i < |rows| && rows[i].active && forall j :: 0 <= j < i ==> !rows[j].active
  }

  ghost predicate HasActive(rows: seq<Setting>) {
    exists i :: 0 <= i < |rows| && rows[i].active
  }

  /** The active row's key is sealed under the service's own key, and `plain` is in it. */
  ghost predicate Opens(rows: seq<Setting>, encKey: nat, plain: string) {
    exists i: nat :: IsActive(rows, i) && rows[i].key.under == encKey && rows[i].key.plain == plain
  }

  ghost predicate CanOpen(rows: seq<Setting>, encKey: nat) {
    exists i: nat :: IsActive(rows, i) && rows[i].key.under == encKey
  }

  lemma {:induction false} ActiveIsFirst(rows: seq<Setting>) returns (i: nat)
    ensures Active(rows).Some? <==> HasActive(rows)
    ensures Active(rows).Some? ==> IsActive(rows, i) && rows[i] == Active(rows).value
  {
    i := 0;
    if rows != [] && !rows[0].active {
      var k := ActiveIsFirst(rows[1..]);
      i := k + 1;
      if HasActive(rows[1..]) {
        var m :| 0 <= m < |rows| - 1 && rows[1..][m].active;
        assert rows[m + 1].active;
      }
    }
  }

  lemma OneIsActive(rows: seq<Setting>, i: nat, j: nat)
    requires IsActive(rows, i) && IsActive(rows, j)
    ensures i == j
  {
  }

  lemma OpensIs(rows: seq<Setting>, encKey: nat)
    ensures CanOpen(rows, encKey) <==> Active(rows).Some? && Decrypt(Active(rows).value.key, encKey).Some?
    ensures CanOpen(rows, encKey) ==> Opens(rows, encKey, Active(rows).value.key.plain)
  {
    var i := ActiveIsFirst(rows);
    if CanOpen(rows, encKey) {
      var j: nat :| IsActive(rows, j) && rows[j].key.under == encKey;
      OneIsActive(rows, i, j);
    }
  }

  ghost predicate Typed(req: Request) {
    req.apiKey.Some? && req.apiKey.value != ""
  }

  /** The call gets as far as the key. */
  ghost predicate GetsToKey(encKey: Option<nat>, req: Request, w: Weather) {
    encKey.Some? && (req.provider == OpenAI || req.provider == OpenRouter) && !w.readFails
  }

  /** The call gets as far as the bridge: the key is typed, or the active row's can be opened. */
  ghost predicate GetsToBridge(s: State, encKey: Option<nat>, req: Request, w: Weather) {
    GetsToKey(encKey, req, w) && (Typed(req) || CanOpen(s.rows, encKey.value))
  }

  lemma KeyResolved(s: State, encKey: nat, req: Request)
    ensures var key := ResolveKey(Active(s.rows), req.apiKey, encKey);
            && (key.Key? <==> Typed(req) || CanOpen(s.rows, encKey))
            && (key.Key? ==> if Typed(req) then req.apiKey == Some(key.plain) else Opens(s.rows, encKey, key.plain))
            && (key == NoKey(KeyRequired) <==> !Typed(req) && !HasActive(s.rows))
            && (key == NoKey(KeyUnreadable) <==> !Typed(req) && HasActive(s.rows) && !CanOpen(s.rows, encKey))
  {
    OpensIs(s.rows, encKey);
    var _ := ActiveIsFirst(s.rows);
  }

  /** An update succeeds exactly when the service has its key, the provider is known, there is a key to
      send, and none of the four calls fails; and each failure has its one cause. */
  lemma UpdateSucceedsIff(s: State, encKey: Option<nat>, req: Request, nonce: nat, w: Weather)
    ensures var r := Updated(s, encKey, req, nonce, w).1;
            && (r.Ok? <==> GetsToBridge(s, encKey, req, w) && !w.pushFails && !w.encryptFails && !w.writeFails)
            && (r == Err(Unavailable) <==> encKey.None?)
            && (r == Err(InvalidProvider) <==> encKey.Some? && req.provider != OpenAI && req.provider != OpenRouter)
            && (r == Err(ReadFailed) <==> encKey.Some? && (req.provider == OpenAI || req.provider == OpenRouter) && w.readFails)
            && (r == Err(KeyRequired) <==> GetsToKey(encKey, req, w) && !Typed(req) && !HasActive(s.rows))
            && (r == Err(KeyUnreadable) <==>
                  GetsToKey(encKey, req, w) && !Typed(req) && HasActive(s.rows) && !CanOpen(s.rows, encKey.value))
            && (r == Err(Rejected) <==> GetsToBridge(s, encKey, req, w) && w.pushFails)
            && (r == Err(EncryptFailed) <==> GetsToBridge(s, encKey, req, w) && !w.pushFails && w.encryptFails)
            && (r == Err(WriteFailed) <==> GetsToBridge(s, encKey, req, w) && !w.pushFails && !w.encryptFails && w.writeFails)
  {
    if encKey.Some? {
      KeyResolved(s, encKey.value, req);
    }
  }

  /** The key the update is about: the typed one, or the active row's when none is typed. */
  ghost predicate KeyMeant(s: State, encKey: nat, req: Request, plain: string) {
    if Typed(req) then req.apiKey == Some(plain) else Opens(s.rows, encKey, plain)
  }

  /** The bridge runs this provider, model and address under this key, with the toolsets if they are a
      list of names and with its own otherwise. */
  ghost predicate Runs(config: Config, provider: Provider, model: string, baseURL: Option<string>, toolsets: Toolsets, plain: string) {
    && config.provider == provider && config.model == model && config.baseURL == baseURL && config.apiKey == plain
    && (toolsets.Listed? ==> config.toolsets == Some(toolsets.names))
    && (!toolsets.Listed? ==> config.toolsets == None)
  }

  /** The rows were switched off and one more, switched on, holds the request with the key sealed. */
  ghost predicate Stores(rows: seq<Setting>, rows': seq<Setting>, encKey: nat, req: Request, nonce: nat, plain: string) {
    && |rows'| == |rows| + 1
    && (forall i :: 0 <= i < |rows| ==> rows'[i] == rows[i].(active := false))
    && rows'[|rows|] == Setting(req.provider, req.model, req.baseURL, Sealed(encKey, plain, nonce), req.toolsets, true)
  }

  /** The active row can be put back, and the bridge takes it. */
  ghost predicate PutsBack(s: State, encKey: nat, w: Weather) {
    CanOpen(s.rows, encKey) && !w.rollbackFails
  }

  ghost predicate RunsActive(rows: seq<Setting>, bridge: Option<Config>) {
    bridge.Some? && exists i: nat :: IsActive(rows, i) && RunsRow(bridge.value, rows[i])
  }

  ghost predicate RunsRow(config: Config, row: Setting) {
    Runs(config, row.provider, row.model, row.baseURL, row.toolsets, row.key.plain)
  }

  lemma ActiveConfigRuns(rows: seq<Setting>)
    requires Active(rows).Some?
    ensures RunsActive(rows, Some(ConfigWith(Active(rows).value, Active(rows).value.key.plain)))
  {
    var i := ActiveIsFirst(rows);
    assert IsActive(rows, i);
  }

  /** What an update leaves: on success the request stored and running under the key meant; turned away
      before the bridge accepts, everything as it was; failed after that, the rows as they were and the
      bridge back on the active row if that can be put back, else on what was pushed. */
  ghost predicate Leaves(s: State, t: State, r: Outcome, encKey: nat, req: Request, nonce: nat, w: Weather, plain: string) {
    if w.pushFails then t == s
    else if r.Ok? then
      && t.bridge.Some? && Runs(t.bridge.value, req.provider, req.model, req.baseURL, req.toolsets, plain)
      && Stores(s.rows, t.rows, encKey, req, nonce, plain)
    else
      && t.rows == s.rows && t.bridge.Some?
      && if PutsBack(s, encKey, w) then RunsActive(s.rows, t.bridge)
         else Runs(t.bridge.value, req.provider, req.model, req.baseURL, req.toolsets, plain)
  }

  lemma UpdateLeaves(s: State, encKey: Option<nat>, req: Request, nonce: nat, w: Weather) returns (plain: string)
    ensures var (t, r) := Updated(s, encKey, req, nonce, w);
            if GetsToBridge(s, encKey, req, w)
            then KeyMeant(s, encKey.value, req, plain) && Leaves(s, t, r, encKey.value, req, nonce, w, plain)
            else t == s && !r.Ok?
  {
    plain := "";
    if GetsToKey(encKey, req, w) {
      var key := ResolveKey(Active(s.rows), req.apiKey, encKey.value);
      KeyResolved(s, encKey.value, req);
      if key.Key? {
        plain := key.plain;
        OpensIs(s.rows, encKey.value);
        if CanOpen(s.rows, encKey.value) {
          ActiveConfigRuns(s.rows);
        }
      }
    }
  }

  /** A rehydrate pushes exactly when the service has its key, the active row is there, read and opened,
      and the bridge accepts; then the bridge runs that row, and otherwise nothing changes. */
  lemma RehydratePushesIff(s: State, encKey: Option<nat>, w: Weather)
    ensures var (t, pushed) := Rehydrated(s, encKey, w);
            && (pushed <==> encKey.Some? && !w.readFails && CanOpen(s.rows, encKey.value) && !w.pushFails)
            && t.rows == s.rows
            && if pushed then RunsActive(s.rows, t.bridge) else t == s
  {
    if encKey.Some? {
      OpensIs(s.rows, encKey.value);
      if CanOpen(s.rows, encKey.value) {
        ActiveConfigRuns(s.rows);
      }
    }
  }

  // ----- over any run -----

  datatype Op = Update(req: Request, nonce: nat, w: Weather) | Rehydrate(w: Weather) | BridgeRestart

  function Apply(s: State, encKey: Option<nat>, op: Op): State {
    match op
    case Update(req, nonce, w) => Updated(s, encKey, req, nonce, w).0
    case Rehydrate(w) => Rehydrated(s, encKey, w).0
    case BridgeRestart => s.(bridge := None)
  }

  function Run(s: State, encKey: Option<nat>, ops: seq<Op>): State {
    if ops == [] then s else Apply(Run(s, encKey, ops[..|ops| - 1]), encKey, ops[|ops| - 1])
  }

  ghost predicate OneActive(rows: seq<Setting>) {
    forall i, j :: 0 <= i < j < |rows| ==> !(rows[i].active && rows[j].active)
  }

  /** No run ever leaves two rows active. */
  lemma {:induction false} AtMostOneActive(encKey: Option<nat>, ops: seq<Op>)
    ensures OneActive(Run(State([], None), encKey, ops).rows)
  {
    if ops != [] {
      AtMostOneActive(encKey, ops[..|ops| - 1]);
      ApplyKeepsOneActive(Run(State([], None), encKey, ops[..|ops| - 1]), encKey, ops[|ops| - 1]);
    }
  }

  lemma ApplyKeepsOneActive(s: State, encKey: Option<nat>, op: Op)
    requires OneActive(s.rows)
    ensures OneActive(Apply(s, encKey, op).rows)
  {
  }

  predicate LeavesKeyBlank(op: Op) {
    op.Update? ==> Blank(op.req.apiKey)
  }

  lemma ApplyKeepsKey(s: State, encKey: Option<nat>, op: Op)
    requires LeavesKeyBlank(op)
    ensures Active(s.rows).None? ==> Active(Apply(s, encKey, op).rows).None?
    ensures Active(s.rows).Some? ==>
              && Active(Apply(s, encKey, op).rows).Some?
              && Active(Apply(s, encKey, op).rows).value.key.plain == Active(s.rows).value.key.plain
  {
    if op.Update? && encKey.Some? && Active(s.rows).Some? {
      var key := ResolveKey(Active(s.rows), op.req.apiKey, encKey.value);
      if key.Key? {
        UpsertedIsActive(s.rows, SettingOf(op.req, key.plain, encKey.value, op.nonce));
      }
    }
  }

  /** The plaintext key survives any number of updates that leave it blank, with any faults. */
  lemma {:induction false} BlankUpdatesKeepTheKey(s: State, encKey: Option<nat>, ops: seq<Op>)
    requires forall k :: 0 <= k < |ops| ==> LeavesKeyBlank(ops[k])
    requires Active(s.rows).Some?
    ensures var t := Run(s, encKey, ops);
            Active(t.rows).Some? && Active(t.rows).value.key.plain == Active(s.rows).value.key.plain
  {
    if ops != [] {
      BlankUpdatesKeepTheKey(s, encKey, ops[..|ops| - 1]);
      ApplyKeepsKey(Run(s, encKey, ops[..|ops| - 1]), encKey, ops[|ops| - 1]);
    }
  }

  // ----- the hint shown instead of the key -----

  /** The first three and last four characters; short keys are starred out. */
  function MaskKey(plain: string): string {
    if plain == "" then ""
    else if |plain| <= 7 then seq(|plain|, _ => '*')
    else plain[..3] + "..." + plain[|plain| - 4..]
  }

  /** No character of a short key is shown; of a longer one the first three and the last four. */
  lemma MaskShape(plain: string)
    ensures |plain| <= 7 ==> |MaskKey(plain)| == |plain| && forall i :: 0 <= i < |plain| ==> MaskKey(plain)[i] == '*'
    ensures |plain| > 7 ==>
              && |MaskKey(plain)| == 10 && MaskKey(plain)[3..6] == "..."
              && MaskKey(plain)[..3] == plain[..3] && MaskKey(plain)[6..] == plain[|plain| - 4..]
  {
  }

  /** Two keys show the same hint exactly when they agree on what may be shown: the length of a short
      key, the ends of a long one. */
  lemma MaskShowsOnlyEnds(a: string, b: string)
    requires '*' !in a && '*' !in b
    ensures MaskKey(a) == MaskKey(b) <==>
              if |a| <= 7 || |b| <= 7 then |a| == |b|
              else a[..3] == b[..3] && a[|a| - 4..] == b[|b| - 4..]
  {
    if |a| > 7 && |b| > 7 {
      MaskOfLong(a);
      MaskOfLong(b);
    } else if |a| > 7 && 0 < |b| <= 7 {
      assert MaskKey(a)[0] == a[0] && MaskKey(b)[0] == '*';
    } else if |b| > 7 && 0 < |a| <= 7 {
      assert MaskKey(b)[0] == b[0] && MaskKey(a)[0] == '*';
    } else if |a| <= 7 && |b| <= 7 {
      assert |MaskKey(a)| == |a| && |MaskKey(b)| == |b|;
    }
  }

  lemma MaskOfLong(a: string)
    requires |a| > 7
    ensures |MaskKey(a)| == 10 && MaskKey(a)[..3] == a[..3] && MaskKey(a)[6..] == a[|a| - 4..]
    ensures MaskKey(a) == MaskKey(a)[..3] + "..." + MaskKey(a)[6..]
  {
  }
}
