/**
 * The stack alert monitor together with the durable owner it submits to. The process may stop
 * (crash, exception, lost reply) between any two durable effects of a poll: a poll is given a
 * number of `effects` it lives to perform.
 */
module StackAlertMonitors {
  import opened Collections
  import opened Decimals
  import opened DurableTaskOwners

  const COOLDOWN_SECONDS: nat := 1800

  datatype Rule = Rule(title: string, promql: string, summary: string)

  /** `labels` is None when the alert carries no label object; an absent fingerprint is empty. */
  datatype Alert = Alert(labels: Option<map<string, string>>, state: string, fingerprint: string)

  datatype Row = Row(firstSeen: nat, lastSeen: nat, lastSubmitted: Option<nat>, active: bool, submitted: bool,
                     instruction: string)

  /** What stays fixed over the life of an installation. */
  datatype Env = Env(
    rules: map<string, Rule>,
    identity: string,
    labelDigest: map<string, string> -> string,
    uuid5: string -> string,
    inputJson: (string, string, string) -> string,
    isTaskId: string -> bool)

  /** Names get distinct request IDs, and the owner accepts their form. */
  ghost predicate ValidEnv(env: Env) {
    && (forall a, b :: env.uuid5(a) == env.uuid5(b) ==> a == b)
    && (forall a :: env.isTaskId(env.uuid5(a)))
  }

  // ---------------------------------------------------------------- incident keys

  function LowerCase(s: string): string {
    seq(|s|, i requires 0 <= i < |s| => if 'A' <= s[i] <= 'Z' then s[i] - 'A' + 'a' else s[i])
  }

  function Label(labels: map<string, string>, name: string): Option<string> {
    if name in labels then Some(labels[name]) else None
  }

  /** The one rule with this title. */
  ghost predicate IsOnlyTitled(rules: map<string, Rule>, title: Option<string>, uid: string) {
    forall other :: (other in rules && Some(rules[other].title) == title) <==> other == uid
  }

  predicate NamesRule(labels: map<string, string>, rules: map<string, Rule>) {
    "rule_uid" in labels && labels["rule_uid"] in rules
  }

  /** The rule an alert is for: the one it names, else the only one with its name as title. */
  ghost predicate IsFor(labels: map<string, string>, rules: map<string, Rule>, uid: string) {
    if NamesRule(labels, rules) then labels["rule_uid"] == uid else IsOnlyTitled(rules, Label(labels, "alertname"), uid)
  }

  /** An alert that asks for an investigation and is firing. */
  predicate AsksFor(alert: Alert) {
    && alert.labels.Some?
    && Label(alert.labels.value, "auto_investigate") == Some("true")
    && Label(alert.labels.value, "managed_by") == Some("agent-workload-platform")
    && LowerCase(alert.state) in {"firing", "alerting"}
  }

  function Fingerprint(alert: Alert, env: Env): string
    requires alert.labels.Some?
  {
    if alert.fingerprint == "" then env.labelDigest(alert.labels.value) else alert.fingerprint
  }

  ghost function RuleFor(labels: map<string, string>, rules: map<string, Rule>): Option<string> {
    if exists uid :: IsFor(labels, rules, uid) then
      var uid :| IsFor(labels, rules, uid); Some(uid)
    else None
  }

  /** An asking alert that some rule is for: that rule's UID, a colon, the alert's fingerprint. */
  ghost function IncidentKey(alert: Alert, env: Env): Option<string> {
    if !AsksFor(alert) then None
    else
      var uid := RuleFor(alert.labels.value, env.rules);
      if uid.None? then None else Some(uid.value + ":" + Fingerprint(alert, env))
  }

  lemma RuleIsUnique(labels: map<string, string>, rules: map<string, Rule>, uid: string)
    requires IsFor(labels, rules, uid)
    ensures RuleFor(labels, rules) == Some(uid) && uid in rules
  {
    if !NamesRule(labels, rules) {
      forall other | IsFor(labels, rules, other) ensures other == uid {
        assert IsOnlyTitled(rules, Label(labels, "alertname"), other);
        assert uid in rules && Some(rules[uid].title) == Label(labels, "alertname");
      }
    }
  }

  /** The rules with this title, collected in any order. */
  method MatchTitles(rules: map<string, Rule>, title: Option<string>) returns (matches: seq<string>)
    ensures NoDuplicates(matches)
    ensures forall uid :: uid in matches <==> uid in rules && Some(rules[uid].title) == title
  {
    matches := [];
    var left := rules.Keys;
    while left != {}
      invariant left <= rules.Keys && NoDuplicates(matches)
      invariant forall uid :: uid in matches <==> uid in rules && uid !in left && Some(rules[uid].title) == title
      decreases |left|
    {
      var uid :| uid in left;
      if Some(rules[uid].title) == title {
        matches := matches + [uid];
      }
      left := left - {uid};
    }
  }

  lemma OneMatchIsOnly(rules: map<string, Rule>, title: Option<string>, matches: seq<string>, uid: string)
    requires NoDuplicates(matches)
    requires forall u :: u in matches <==> u in rules && Some(rules[u].title) == title
    ensures IsOnlyTitled(rules, title, uid) <==> matches == [uid]
  {
    assert |matches| > 1 ==> matches[0] != matches[1];
    if IsOnlyTitled(rules, title, uid) {
      assert uid in matches;
      var i :| 0 <= i < |matches| && matches[i] == uid;
      forall k | 0 <= k < |matches| ensures matches[k] == uid {
        assert matches[k] in matches;
      }
    }
  }

  method FindRule(labels: map<string, string>, rules: map<string, Rule>) returns (uid: Option<string>)
    ensures uid == RuleFor(labels, rules)
    ensures uid.Some? ==> IsFor(labels, rules, uid.value)
  {
    if NamesRule(labels, rules) {
      RuleIsUnique(labels, rules, labels["rule_uid"]);
      return Some(labels["rule_uid"]);
    }
    var matches := MatchTitles(rules, Label(labels, "alertname"));
    forall u ensures IsFor(labels, rules, u) <==> matches == [u] {
      OneMatchIsOnly(rules, Label(labels, "alertname"), matches, u);
    }
    if |matches| != 1 {
      return None;
    }
    RuleIsUnique(labels, rules, matches[0]);
    return Some(matches[0]);
  }

  /** In the order of the source: opt-in, rule, state, fingerprint. */
  method ComputeIncidentKey(alert: Alert, env: Env) returns (key: Option<string>)
    ensures key == IncidentKey(alert, env)
  {
    if alert.labels.None? { return None; }
    var labels := alert.labels.value;
    if Label(labels, "auto_investigate") != Some("true")
      || Label(labels, "managed_by") != Some("agent-workload-platform") {
      return None;
    }
    var uid := FindRule(labels, env.rules);
    if uid.None? || LowerCase(alert.state) !in {"firing", "alerting"} {
      return None;
    }
    var fingerprint := alert.fingerprint;
    if fingerprint == "" {
      fingerprint := env.labelDigest(labels);
    }
    return Some(uid.value + ":" + fingerprint);
  }

  /** `key.split(":", 1)[0]` */
  function BeforeColon(key: string): string {
    if key == "" || key[0] == ':' then "" else [key[0]] + BeforeColon(key[1..])
  }

  lemma {:induction false} BeforeColonOfKey(uid: string, rest: string)
    ensures BeforeColon(uid + ":" + rest) == uid <==> ':' !in uid
  {
    var key := uid + ":" + rest;
    if uid == "" {
      assert key[0] == ':';
    } else if uid[0] == ':' {
      assert key[0] == ':';
      assert ':' in uid;
    } else {
      assert key[1..] == uid[1..] + ":" + rest;
      BeforeColonOfKey(uid[1..], rest);
      assert uid == [uid[0]] + uid[1..];
    }
  }

  /** A key names a configured rule again as long as no rule UID holds a colon. */
  lemma KeyNamesItsRule(alert: Alert, env: Env)
    requires forall uid :: uid in env.rules ==> ':' !in uid
    requires IncidentKey(alert, env).Some?
    ensures BeforeColon(IncidentKey(alert, env).value) in env.rules
  {
    var uid := RuleFor(alert.labels.value, env.rules).value;
    RuleIsUnique(alert.labels.value, env.rules, uid);
    BeforeColonOfKey(uid, Fingerprint(alert, env));
  }

  // ---------------------------------------------------------------- request IDs

  function EpisodeName(key: string, firstSeen: nat): string {
    "awp-stack-alert:" + key + ":" + Decimal(firstSeen)
  }

  function RequestId(env: Env, key: string, firstSeen: nat): string {
    env.uuid5(EpisodeName(key, firstSeen))
  }

  lemma EpisodeNameInjective(k1: string, f1: nat, k2: string, f2: nat)
    requires EpisodeName(k1, f1) == EpisodeName(k2, f2)
    ensures k1 == k2 && f1 == f2
  {
    var head := "awp-stack-alert:";
    var d1, d2 := Decimal(f1), Decimal(f2);
    var a, b := EpisodeName(k1, f1), EpisodeName(k2, f2);
    assert a[|a| - |d1| - 1] == ':' && b[|b| - |d2| - 1] == ':';
    assert a[|a| - |d1|..] == d1 && b[|b| - |d2|..] == d2;
    assert forall j :: |a| - |d1| <= j < |a| ==> a[j] == d1[j - (|a| - |d1|)];
    assert forall j :: |b| - |d2| <= j < |b| ==> b[j] == d2[j - (|b| - |d2|)];
    if |d1| != |d2| {
      assert false;
    }
    DecimalInjective(f1, f2);
    assert k1 == a[|head|..|a| - |d1| - 1] && k2 == b[|head|..|b| - |d2| - 1];
  }

  /** Distinct episodes never share a request ID. */
  lemma RequestIdInjective(env: Env)
    requires ValidEnv(env)
    ensures forall k1, f1, k2, f2 {:trigger RequestId(env, k1, f1), RequestId(env, k2, f2)} ::
              RequestId(env, k1, f1) == RequestId(env, k2, f2) ==> k1 == k2 && f1 == f2
  {
    forall k1, f1, k2, f2 | RequestId(env, k1, f1) == RequestId(env, k2, f2)
      ensures k1 == k2 && f1 == f2
    {
      EpisodeNameInjective(k1, f1, k2, f2);
    }
  }

  // ---------------------------------------------------------------- polls

  /** `instruction(i)` is what `instruction_for` would render now for the i-th alert. */
  datatype Poll = Poll(alerts: seq<Alert>, now: nat, clearMissing: bool, effects: nat, instruction: nat -> string)

  datatype World = World(rows: map<string, Row>, owner: OwnerState, conflicts: nat)

  /** A poll in progress; a stopped one performs nothing more. */
  datatype Progress = Progress(world: World, activeKeys: set<string>, effects: nat, stopped: bool,
                               submitted: seq<string>)

  /** A row that ended its last episode at least a cooldown ago, or no row at all. */
  predicate StartsEpisode(rows: map<string, Row>, key: string, now: nat) {
    key in rows ==>
      && !rows[key].active && rows[key].submitted && rows[key].lastSubmitted.Some?
      && now - rows[key].lastSubmitted.value >= COOLDOWN_SECONDS
  }

  function SeenRow(rows: map<string, Row>, key: string, now: nat, rendered: string): Row {
    if StartsEpisode(rows, key, now) then
      Row(now, now, if key in rows then rows[key].lastSubmitted else None, true, false, rendered)
    else rows[key].(lastSeen := now, active := true)
  }

  ghost function HandleAlert(env: Env, poll: Poll, i: nat, p: Progress): Progress
    requires i < |poll.alerts|
  {
    var key := IncidentKey(poll.alerts[i], env);
    if key.None? || key.value in p.activeKeys then p
    else HandleKey(env, poll, i, key.value, p)
  }

  ghost function HandleKey(env: Env, poll: Poll, i: nat, key: string, p: Progress): Progress {
    var q := p.(activeKeys := p.activeKeys + {key});
    if StartsEpisode(p.world.rows, key, poll.now) && BeforeColon(key) !in env.rules then q.(stopped := true)
    else if q.effects == 0 then q.(stopped := true)
    else
      var row := SeenRow(p.world.rows, key, poll.now, poll.instruction(i));
      var r := q.(world := q.world.(rows := q.world.rows[key := row]), effects := q.effects - 1);
      if row.submitted then r else SubmitEpisode(env, poll, key, row, r)
  }

  ghost function SubmitEpisode(env: Env, poll: Poll, key: string, row: Row, p: Progress): Progress {
    if p.effects == 0 then p.(stopped := true)
    else
      var id := RequestId(env, key, row.firstSeen);
      var (owner, result) := DurableTaskOwners.Submitted(p.world.owner, env.isTaskId, id,
                                                         env.inputJson(id, env.identity, row.instruction), poll.now);
      if result != Accepted then
        p.(world := p.world.(owner := owner, conflicts := p.world.conflicts + 1), effects := p.effects - 1,
           stopped := true)
      else
        var q := p.(world := p.world.(owner := owner), effects := p.effects - 1);
        if q.effects == 0 then q.(stopped := true)
        else
          q.(world := q.world.(rows := q.world.rows[key := row.(submitted := true, lastSubmitted := Some(poll.now))]),
             effects := q.effects - 1, submitted := q.submitted + [BeforeColon(key)])
  }

  ghost function HandleFrom(env: Env, poll: Poll, i: nat, p: Progress): Progress
    requires i <= |poll.alerts|
    decreases |poll.alerts| - i
  {
    if p.stopped || i == |poll.alerts| then p
    else HandleFrom(env, poll, i + 1, HandleAlert(env, poll, i, p))
  }

  function Cleared(rows: map<string, Row>, activeKeys: set<string>): map<string, Row> {
    map k | k in rows :: if rows[k].active && k !in activeKeys then rows[k].(active := false) else rows[k]
  }

  ghost function ClearMissing(poll: Poll, p: Progress): Progress {
    if p.stopped || !poll.clearMissing then p
    else if p.effects == 0 then p.(stopped := true)
    else p.(world := p.world.(rows := Cleared(p.world.rows, p.activeKeys)), effects := p.effects - 1)
  }

  ghost function Started(poll: Poll, w: World): Progress {
    Progress(w, {}, poll.effects, false, [])
  }

  ghost function RunPoll(env: Env, poll: Poll, w: World): Progress {
    ClearMissing(poll, HandleFrom(env, poll, 0, Started(poll, w)))
  }

  ghost function RunPolls(env: Env, polls: seq<Poll>, w: World): World
    decreases |polls|
  {
    if polls == [] then w else RunPolls(env, polls[1..], RunPoll(env, polls[0], w).world)
  }

  const EmptyWorld := World(map[], EmptyOwner, 0)

  // ---------------------------------------------------------------- the invariant

  ghost predicate Inv(env: Env, w: World, clock: nat) {
    && WellFormed(w.owner)
    && w.conflicts == 0
    && (forall k :: k in w.rows ==> RowInv(env, w.owner, k, w.rows[k], clock))
    && (forall k, f {:trigger RequestId(env, k, f)} :: RequestId(env, k, f) in w.owner.entries ==>
          k in w.rows && EpisodeInv(env, w.owner, k, f, w.rows[k], clock))
    && Spaced(env, w.owner)
  }

  function CreatedAt(owner: OwnerState, id: string): nat {
    if id in owner.entries && owner.entries[id].taskId < |owner.tasks|
    then owner.tasks[owner.entries[id].taskId].createdAt else 0
  }

  ghost predicate RowInv(env: Env, owner: OwnerState, k: string, row: Row, clock: nat) {
    && row.firstSeen <= clock
    && (row.lastSubmitted.Some? ==> row.lastSubmitted.value <= clock)
    && (row.submitted ==> row.lastSubmitted.Some? && RequestId(env, k, row.firstSeen) in owner.entries)
  }

  /** A submitted episode f of key k, against the row the monitor now keeps for k. */
  ghost predicate EpisodeInv(env: Env, owner: OwnerState, k: string, f: nat, row: Row, clock: nat) {
    var id := RequestId(env, k, f);
    && id in owner.entries
    && f <= CreatedAt(owner, id) <= clock
    && f <= row.firstSeen
    && (f == row.firstSeen ==> owner.entries[id].inputJson == env.inputJson(id, env.identity, row.instruction))
    && (f == row.firstSeen && row.submitted ==>
        row.lastSubmitted.Some? && CreatedAt(owner, id) <= row.lastSubmitted.value)
    && (f < row.firstSeen ==> CreatedAt(owner, id) + COOLDOWN_SECONDS <= row.firstSeen)
  }

  /** A later episode of a key begins a full cooldown after the earlier one's task was created. */
  ghost predicate Spaced(env: Env, owner: OwnerState) {
    forall k, f, g {:trigger RequestId(env, k, f), RequestId(env, k, g)} ::
      f < g && RequestId(env, k, f) in owner.entries && RequestId(env, k, g) in owner.entries ==>
        CreatedAt(owner, RequestId(env, k, f)) + COOLDOWN_SECONDS <= g
  }

  lemma WaitKeepsInv(env: Env, w: World, clock: nat, now: nat)
    requires Inv(env, w, clock) && clock <= now
    ensures Inv(env, w, now)
  {
  }

  lemma SeenRowKeepsInv(env: Env, w: World, key: string, now: nat, rendered: string)
    requires ValidEnv(env) && Inv(env, w, now)
    ensures Inv(env, w.(rows := w.rows[key := SeenRow(w.rows, key, now, rendered)]), now)
  {
    var row := SeenRow(w.rows, key, now, rendered);
    var next := w.(rows := w.rows[key := row]);
    forall k, f | RequestId(env, k, f) in w.owner.entries
      ensures k in next.rows && EpisodeInv(env, w.owner, k, f, next.rows[k], now)
    {
      assert EpisodeInv(env, w.owner, k, f, w.rows[k], now);
      if k == key && StartsEpisode(w.rows, key, now) {
        var before := w.rows[key];
        assert RowInv(env, w.owner, k, before, now);
        if f == before.firstSeen {
          assert CreatedAt(w.owner, RequestId(env, k, f)) <= before.lastSubmitted.value;
        } else {
          assert EpisodeInv(env, w.owner, k, before.firstSeen, before, now);
        }
      }
    }
    forall k | k in next.rows ensures RowInv(env, w.owner, k, next.rows[k], now) {
      if k in w.rows { assert RowInv(env, w.owner, k, w.rows[k], now); }
    }
  }

  /** Submitting the current episode is accepted, and creates a task only when it is the first try. */
  lemma SubmitKeepsInv(env: Env, w: World, key: string, now: nat)
    requires ValidEnv(env) && Inv(env, w, now)
    requires key in w.rows && !w.rows[key].submitted
    ensures
      var row := w.rows[key];
      var id := RequestId(env, key, row.firstSeen);
      var (owner, result) := DurableTaskOwners.Submitted(w.owner, env.isTaskId, id,
                                                         env.inputJson(id, env.identity, row.instruction), now);
      && result == Accepted
      && id in owner.entries
      && Inv(env, w.(owner := owner), now)
  {
    var row := w.rows[key];
    var id := RequestId(env, key, row.firstSeen);
    var json := env.inputJson(id, env.identity, row.instruction);
    var owner := DurableTaskOwners.Submitted(w.owner, env.isTaskId, id, json, now).0;
    SubmittedKeepsWellFormed(w.owner, env.isTaskId, id, json, now);
    RequestIdInjective(env);
    if id in w.owner.entries {
      assert EpisodeInv(env, w.owner, key, row.firstSeen, row, now);
    } else {
      forall r | r in w.owner.entries ensures r in owner.entries && CreatedAt(owner, r) == CreatedAt(w.owner, r) {
      }
      assert CreatedAt(owner, id) == now;
      forall k, f | RequestId(env, k, f) in owner.entries
        ensures k in w.rows && EpisodeInv(env, owner, k, f, w.rows[k], now)
      {
        if RequestId(env, k, f) != id {
          assert EpisodeInv(env, w.owner, k, f, w.rows[k], now);
        }
      }
      forall k | k in w.rows ensures RowInv(env, owner, k, w.rows[k], now) {
        assert RowInv(env, w.owner, k, w.rows[k], now);
      }
      forall k, f, g | f < g && RequestId(env, k, f) in owner.entries && RequestId(env, k, g) in owner.entries
        ensures CreatedAt(owner, RequestId(env, k, f)) + COOLDOWN_SECONDS <= g
      {
        assert EpisodeInv(env, owner, k, g, w.rows[k], now);
        if RequestId(env, k, f) != id {
          assert EpisodeInv(env, w.owner, k, f, w.rows[k], now);
        }
      }
    }
  }

  lemma MarkKeepsInv(env: Env, w: World, key: string, now: nat)
    requires ValidEnv(env) && Inv(env, w, now)
    requires key in w.rows && RequestId(env, key, w.rows[key].firstSeen) in w.owner.entries
    ensures Inv(env, w.(rows := w.rows[key := w.rows[key].(submitted := true, lastSubmitted := Some(now))]), now)
  {
    var next := w.(rows := w.rows[key := w.rows[key].(submitted := true, lastSubmitted := Some(now))]);
    forall k, f | RequestId(env, k, f) in w.owner.entries
      ensures k in next.rows && EpisodeInv(env, w.owner, k, f, next.rows[k], now)
    {
      assert EpisodeInv(env, w.owner, k, f, w.rows[k], now);
    }
    forall k | k in next.rows ensures RowInv(env, w.owner, k, next.rows[k], now) {
      assert RowInv(env, w.owner, k, w.rows[k], now);
    }
  }

  lemma ClearKeepsInv(env: Env, w: World, activeKeys: set<string>, now: nat)
    requires Inv(env, w, now)
    ensures Inv(env, w.(rows := Cleared(w.rows, activeKeys)), now)
  {
    var rows := Cleared(w.rows, activeKeys);
    forall k, f | RequestId(env, k, f) in w.owner.entries
      ensures k in rows && EpisodeInv(env, w.owner, k, f, rows[k], now)
    {
      assert EpisodeInv(env, w.owner, k, f, w.rows[k], now);
    }
    forall k | k in rows ensures RowInv(env, w.owner, k, rows[k], now) {
      assert RowInv(env, w.owner, k, w.rows[k], now);
    }
  }

  /** What a poll has achieved for a key it has dealt with. */
  ghost predicate Investigated(env: Env, w: World, key: string, now: nat) {
    && key in w.rows
    && w.rows[key].active && w.rows[key].submitted && w.rows[key].lastSeen == now
    && RequestId(env, key, w.rows[key].firstSeen) in w.owner.entries
  }

  ghost predicate ProgressInv(env: Env, poll: Poll, p: Progress) {
    && Inv(env, p.world, poll.now)
    && (!p.stopped ==> forall k :: k in p.activeKeys ==> Investigated(env, p.world, k, poll.now))
  }

  lemma SubmitEpisodeKeepsInv(env: Env, poll: Poll, key: string, p: Progress)
    requires ValidEnv(env) && Inv(env, p.world, poll.now)
    requires key in p.world.rows && !p.world.rows[key].submitted
    ensures Inv(env, SubmitEpisode(env, poll, key, p.world.rows[key], p).world, poll.now)
  {
    var w, row := p.world, p.world.rows[key];
    SubmitKeepsInv(env, w, key, poll.now);
    var id := RequestId(env, key, row.firstSeen);
    var owner := DurableTaskOwners.Submitted(w.owner, env.isTaskId, id,
                                             env.inputJson(id, env.identity, row.instruction), poll.now).0;
    MarkKeepsInv(env, w.(owner := owner), key, poll.now);
  }

  lemma SubmitEpisodeInvestigates(env: Env, poll: Poll, key: string, p: Progress)
    requires ValidEnv(env) && Inv(env, p.world, poll.now) && !p.stopped
    requires key in p.world.rows && !p.world.rows[key].submitted
    requires p.world.rows[key].active && p.world.rows[key].lastSeen == poll.now
    ensures
      var q := SubmitEpisode(env, poll, key, p.world.rows[key], p);
      && (!q.stopped ==> Investigated(env, q.world, key, poll.now))
      && (forall k :: k != key && Investigated(env, p.world, k, poll.now) ==> Investigated(env, q.world, k, poll.now))
  {
    SubmitKeepsInv(env, p.world, key, poll.now);
  }

  /** The progress once the row of a firing alert is written. */
  ghost function Seen(env: Env, poll: Poll, i: nat, key: string, p: Progress): Progress
    requires p.effects > 0
  {
    var row := SeenRow(p.world.rows, key, poll.now, poll.instruction(i));
    Progress(p.world.(rows := p.world.rows[key := row]), p.activeKeys + {key}, p.effects - 1, false, p.submitted)
  }

  lemma SeenKeepsInv(env: Env, poll: Poll, i: nat, key: string, p: Progress)
    requires ValidEnv(env) && ProgressInv(env, poll, p) && p.effects > 0
    requires key !in p.activeKeys && !p.stopped
    requires !(StartsEpisode(p.world.rows, key, poll.now) && BeforeColon(key) !in env.rules)
    ensures
      var r := Seen(env, poll, i, key, p);
      && Inv(env, r.world, poll.now)
      && (forall k :: k in p.activeKeys ==> k != key && Investigated(env, r.world, k, poll.now))
      && (r.world.rows[key].submitted ==> Investigated(env, r.world, key, poll.now))
  {
    var r := Seen(env, poll, i, key, p);
    SeenRowKeepsInv(env, p.world, key, poll.now, poll.instruction(i));
    assert RowInv(env, r.world.owner, key, r.world.rows[key], poll.now);
  }

  lemma HandleKeyGoesOn(env: Env, poll: Poll, i: nat, key: string, p: Progress)
    requires !p.stopped && p.effects > 0
    requires !(StartsEpisode(p.world.rows, key, poll.now) && BeforeColon(key) !in env.rules)
    ensures
      var r := Seen(env, poll, i, key, p);
      HandleKey(env, poll, i, key, p)
        == if r.world.rows[key].submitted then r else SubmitEpisode(env, poll, key, r.world.rows[key], r)
  {
  }

  lemma HandleKeyKeepsInv(env: Env, poll: Poll, i: nat, key: string, p: Progress)
    requires ValidEnv(env) && ProgressInv(env, poll, p)
    requires key !in p.activeKeys && !p.stopped
    ensures ProgressInv(env, poll, HandleKey(env, poll, i, key, p))
  {
    var rows := p.world.rows;
    if !(StartsEpisode(rows, key, poll.now) && BeforeColon(key) !in env.rules) && p.effects > 0 {
      var r := Seen(env, poll, i, key, p);
      SeenKeepsInv(env, poll, i, key, p);
      if !r.world.rows[key].submitted {
        SubmitEpisodeKeepsInv(env, poll, key, r);
        SubmitEpisodeInvestigates(env, poll, key, r);
      }
      HandleKeyGoesOn(env, poll, i, key, p);
    }
  }

  lemma HandleAlertKeepsInv(env: Env, poll: Poll, i: nat, p: Progress)
    requires ValidEnv(env) && ProgressInv(env, poll, p)
    requires i < |poll.alerts| && !p.stopped
    ensures
      var q := HandleAlert(env, poll, i, p);
      ProgressInv(env, poll, q) && p.activeKeys <= q.activeKeys && Noticed(env, poll.alerts[i], q.activeKeys)
  {
    var key := IncidentKey(poll.alerts[i], env);
    if key.Some? && key.value !in p.activeKeys {
      HandleKeyKeepsInv(env, poll, i, key.value, p);
    }
  }

  lemma NoticedForGood(env: Env, alerts: seq<Alert>, n: nat, before: set<string>, after: set<string>)
    requires n <= |alerts| && before <= after
    requires forall j :: 0 <= j < n ==> Noticed(env, alerts[j], before)
    ensures forall j :: 0 <= j < n ==> Noticed(env, alerts[j], after)
  {
  }

  lemma {:induction false} HandleFromKeepsInv(env: Env, poll: Poll, i: nat, p: Progress)
    requires ValidEnv(env) && ProgressInv(env, poll, p)
    requires i <= |poll.alerts|
    requires forall j :: 0 <= j < i ==> Noticed(env, poll.alerts[j], p.activeKeys)
    ensures
      var q := HandleFrom(env, poll, i, p);
      && ProgressInv(env, poll, q)
      && (!q.stopped ==> forall j :: 0 <= j < |poll.alerts| ==> Noticed(env, poll.alerts[j], q.activeKeys))
    decreases |poll.alerts| - i
  {
    if !p.stopped && i < |poll.alerts| {
      HandleAlertKeepsInv(env, poll, i, p);
      var q := HandleAlert(env, poll, i, p);
      NoticedForGood(env, poll.alerts, i, p.activeKeys, q.activeKeys);
      HandleFromKeepsInv(env, poll, i + 1, q);
    }
  }

  ghost predicate Noticed(env: Env, alert: Alert, activeKeys: set<string>) {
    IncidentKey(alert, env).Some? ==> IncidentKey(alert, env).value in activeKeys
  }

  /**
   * A poll that was not stopped leaves every firing incident active, marked submitted and known to
   * the owner: together with the conflicts that never happen, exactly one task per episode.
   */
  lemma PollKeepsInv(env: Env, poll: Poll, w: World, clock: nat)
    requires ValidEnv(env) && Inv(env, w, clock) && clock <= poll.now
    ensures Inv(env, RunPoll(env, poll, w).world, poll.now)
    ensures !RunPoll(env, poll, w).stopped ==>
              forall i :: 0 <= i < |poll.alerts| && IncidentKey(poll.alerts[i], env).Some? ==>
                Investigated(env, RunPoll(env, poll, w).world, IncidentKey(poll.alerts[i], env).value, poll.now)
  {
    WaitKeepsInv(env, w, clock, poll.now);
    HandleFromKeepsInv(env, poll, 0, Started(poll, w));
    var p := HandleFrom(env, poll, 0, Started(poll, w));
    ClearKeepsInv(env, p.world, p.activeKeys, poll.now);
    if !RunPoll(env, poll, w).stopped {
      forall i | 0 <= i < |poll.alerts| && IncidentKey(poll.alerts[i], env).Some?
        ensures Investigated(env, RunPoll(env, poll, w).world, IncidentKey(poll.alerts[i], env).value, poll.now)
      {
        assert Noticed(env, poll.alerts[i], p.activeKeys);
      }
    }
  }

  // ---------------------------------------------------------------- whole runs

  ghost predicate ClockNeverGoesBack(polls: seq<Poll>, clock: nat) {
    && (forall i :: 0 <= i < |polls| ==> clock <= polls[i].now)
    && (forall i, j :: 0 <= i < j < |polls| ==> polls[i].now <= polls[j].now)
  }

  lemma {:induction false} RunKeepsInv(env: Env, polls: seq<Poll>, w: World, clock: nat) returns (end: nat)
    requires ValidEnv(env) && Inv(env, w, clock) && ClockNeverGoesBack(polls, clock)
    ensures Inv(env, RunPolls(env, polls, w), end)
    decreases |polls|
  {
    if polls == [] {
      end := clock;
    } else {
      PollKeepsInv(env, polls[0], w, clock);
      assert forall i :: 0 <= i < |polls[1..]| ==> polls[1..][i] == polls[i + 1];
      end := RunKeepsInv(env, polls[1..], RunPoll(env, polls[0], w).world, polls[0].now);
    }
  }

  /** Task i was created for episode f of incident k. */
  ghost predicate TaskOf(env: Env, w: World, i: nat, k: string, f: nat) {
    i < |w.owner.tasks| && w.owner.tasks[i].requestId == RequestId(env, k, f)
  }

  /**
   * Whatever polls, crashes and lost replies happen: the owner never reports a conflict, an episode
   * has at most one task, and two tasks of one incident are at least a cooldown apart in poll time.
   */
  lemma EveryAlertRun(env: Env, polls: seq<Poll>)
    requires ValidEnv(env) && ClockNeverGoesBack(polls, 0)
    ensures
      var w := RunPolls(env, polls, EmptyWorld);
      && w.conflicts == 0
      && (forall i: nat, j: nat, k, f: nat :: TaskOf(env, w, i, k, f) && TaskOf(env, w, j, k, f) ==> i == j)
      && (forall i: nat, j: nat, k, f: nat, g: nat :: TaskOf(env, w, i, k, f) && TaskOf(env, w, j, k, g) && f < g ==>
            w.owner.tasks[i].createdAt + COOLDOWN_SECONDS <= w.owner.tasks[j].createdAt)
      && (forall i: nat, k, f: nat :: TaskOf(env, w, i, k, f) && k in w.rows && f == w.rows[k].firstSeen ==>
            w.owner.tasks[i].inputJson == env.inputJson(RequestId(env, k, f), env.identity, w.rows[k].instruction))
  {
    var end := RunKeepsInv(env, polls, EmptyWorld, 0);
    var w := RunPolls(env, polls, EmptyWorld);
    forall i: nat, j: nat, k, f: nat, g: nat | TaskOf(env, w, i, k, f) && TaskOf(env, w, j, k, g) && f < g
      ensures w.owner.tasks[i].createdAt + COOLDOWN_SECONDS <= w.owner.tasks[j].createdAt
    {
      assert w.owner.tasks[i].requestId in w.owner.entries && w.owner.tasks[j].requestId in w.owner.entries;
      assert EpisodeInv(env, w.owner, k, g, w.rows[k], end);
    }
    forall i: nat, k, f: nat | TaskOf(env, w, i, k, f) && k in w.rows && f == w.rows[k].firstSeen
      ensures w.owner.tasks[i].inputJson == env.inputJson(RequestId(env, k, f), env.identity, w.rows[k].instruction)
    {
      assert w.owner.tasks[i].requestId in w.owner.entries;
      assert EpisodeInv(env, w.owner, k, f, w.rows[k], end);
    }
  }

  // ---------------------------------------------------------------- what a completed poll has done

  /** Some alert of the poll has this key, and the i-th is the first. */
  ghost predicate FiresFirst(env: Env, poll: Poll, key: string, i: nat) {
    && i < |poll.alerts| && IncidentKey(poll.alerts[i], env) == Some(key)
    && forall j | 0 <= j < i :: IncidentKey(poll.alerts[j], env) != Some(key)
  }

  ghost predicate Fires(env: Env, poll: Poll, key: string) {
    exists i: nat :: i < |poll.alerts| && IncidentKey(poll.alerts[i], env) == Some(key)
  }

  /** An incident that is new, or was put to rest at least half an hour after its last submission. */
  predicate BeginsAnew(rows: map<string, Row>, key: string, now: nat) {
    key !in rows ||
    (&& !rows[key].active && rows[key].submitted && rows[key].lastSubmitted.Some?
     && rows[key].lastSubmitted.value + 1800 <= now)
  }

  /** What becomes of the row of a firing incident. */
  ghost predicate RowFired(env: Env, poll: Poll, before: map<string, Row>, after: map<string, Row>, key: string) {
    && key in after && after[key].active && after[key].submitted && after[key].lastSeen == poll.now
    && if BeginsAnew(before, key, poll.now) then
         && after[key].firstSeen == poll.now && after[key].lastSubmitted == Some(poll.now)
         && exists i: nat :: FiresFirst(env, poll, key, i) && after[key].instruction == poll.instruction(i)
       else
         && after[key].firstSeen == before[key].firstSeen && after[key].instruction == before[key].instruction
         && after[key].lastSubmitted == if before[key].submitted then before[key].lastSubmitted else Some(poll.now)
  }

  /** Its episode has a task, which a new episode got now. */
  ghost predicate TaskFired(env: Env, poll: Poll, before: map<string, Row>, w: World, key: string) {
    && key in w.rows && RequestId(env, key, w.rows[key].firstSeen) in w.owner.entries
    && (BeginsAnew(before, key, poll.now) ==>
          CreatedAt(w.owner, RequestId(env, key, w.rows[key].firstSeen)) == poll.now)
  }

  /** What becomes of the row of an incident that does not fire. */
  predicate RowQuiet(poll: Poll, before: map<string, Row>, after: map<string, Row>, key: string) {
    && (key in before <==> key in after)
    && (key in before ==> after[key] == if poll.clearMissing then before[key].(active := false) else before[key])
  }

  /** The incident was submitted in this poll: its episode is new or had not been marked submitted. */
  predicate Submits(before: map<string, Row>, key: string, now: nat) {
    BeginsAnew(before, key, now) || (key in before && !before[key].submitted)
  }

  /** Requests stay, with their task and the time it was created. */
  ghost predicate KeepsTasks(a: OwnerState, b: OwnerState) {
    forall id | id in a.entries :: id in b.entries && CreatedAt(b, id) == CreatedAt(a, id)
  }

  /** The rules reported are those of the incidents submitted. */
  ghost predicate Reports(submitted: seq<string>, activeKeys: set<string>, before: map<string, Row>, now: nat) {
    forall uid ::
      uid in submitted <==> exists k :: k in activeKeys && Submits(before, k, now) && BeforeColon(k) == uid
  }

  /** Not dealt with yet: the row is as it was. */
  predicate Untouched(before: map<string, Row>, after: map<string, Row>, k: string) {
    (k in before <==> k in after) && (k in before ==> after[k] == before[k])
  }

  ghost predicate Handled(env: Env, poll: Poll, before: map<string, Row>, w: World, k: string) {
    Fires(env, poll, k) && RowFired(env, poll, before, w.rows, k) && TaskFired(env, poll, before, w, k)
  }

  /** Where the loop is: the keys it has dealt with, against the rows it started from. */
  ghost predicate HandledInv(env: Env, poll: Poll, before: map<string, Row>, p: Progress) {
    && (forall k | k !in p.activeKeys :: Untouched(before, p.world.rows, k))
    && (forall k | k in p.activeKeys :: Handled(env, poll, before, p.world, k))
    && Reports(p.submitted, p.activeKeys, before, poll.now)
  }

  /** One firing incident, dealt with to its end. */
  lemma HandleKeyDoes(env: Env, poll: Poll, i: nat, key: string, p: Progress)
    requires ValidEnv(env) && ProgressInv(env, poll, p) && !p.stopped && key !in p.activeKeys
    requires FiresFirst(env, poll, key, i) && !HandleKey(env, poll, i, key, p).stopped
    ensures
      var q := HandleKey(env, poll, i, key, p);
      && q.activeKeys == p.activeKeys + {key} && q.world.rows.Keys == p.world.rows.Keys + {key}
      && (forall k | k in p.world.rows && k != key :: q.world.rows[k] == p.world.rows[k])
      && KeepsTasks(p.world.owner, q.world.owner)
      && RowFired(env, poll, p.world.rows, q.world.rows, key) && TaskFired(env, poll, p.world.rows, q.world, key)
      && q.submitted == p.submitted + if Submits(p.world.rows, key, poll.now) then [BeforeColon(key)] else []
  {
    var r := Seen(env, poll, i, key, p);
    SeenKeepsInv(env, poll, i, key, p);
    HandleKeyGoesOn(env, poll, i, key, p);
    assert StartsEpisode(p.world.rows, key, poll.now) <==> BeginsAnew(p.world.rows, key, poll.now);
    NewEpisodeIsUnknown(env, p.world, key, poll.now);
    if !r.world.rows[key].submitted {
      SubmitEpisodeDoes(env, poll, key, r);
    }
  }

  /** The request of a new episode is not known to the owner yet. */
  lemma NewEpisodeIsUnknown(env: Env, w: World, key: string, now: nat)
    requires Inv(env, w, now)
    ensures BeginsAnew(w.rows, key, now) ==> RequestId(env, key, now) !in w.owner.entries
  {
    assert key in w.rows ==> RowInv(env, w.owner, key, w.rows[key], now);
    if RequestId(env, key, now) in w.owner.entries {
      assert EpisodeInv(env, w.owner, key, now, w.rows[key], now);
    }
  }

  lemma SubmitEpisodeDoes(env: Env, poll: Poll, key: string, p: Progress)
    requires ValidEnv(env) && Inv(env, p.world, poll.now) && !p.stopped
    requires key in p.world.rows && !p.world.rows[key].submitted
    requires !SubmitEpisode(env, poll, key, p.world.rows[key], p).stopped
    ensures
      var row, q := p.world.rows[key], SubmitEpisode(env, poll, key, p.world.rows[key], p);
      && q.activeKeys == p.activeKeys
      && q.world.rows == p.world.rows[key := row.(submitted := true, lastSubmitted := Some(poll.now))]
      && KeepsTasks(p.world.owner, q.world.owner) && RequestId(env, key, row.firstSeen) in q.world.owner.entries
      && (RequestId(env, key, row.firstSeen) !in p.world.owner.entries ==>
            CreatedAt(q.world.owner, RequestId(env, key, row.firstSeen)) == poll.now)
      && q.submitted == p.submitted + [BeforeColon(key)]
  {
    SubmitKeepsInv(env, p.world, key, poll.now);
  }

  lemma StaysHandled(env: Env, poll: Poll, before: map<string, Row>, w: World, v: World, k: string)
    requires Handled(env, poll, before, w, k) && Untouched(w.rows, v.rows, k) && KeepsTasks(w.owner, v.owner)
    ensures Handled(env, poll, before, v, k)
  {
    assert RequestId(env, k, w.rows[k].firstSeen) in w.owner.entries;
  }

  /** What counts as before is the row alone, so an incident not dealt with can be judged by either. */
  lemma HandledSince(env: Env, poll: Poll, before: map<string, Row>, now: map<string, Row>, v: World, k: string)
    requires Untouched(before, now, k) && Handled(env, poll, now, v, k)
    ensures Handled(env, poll, before, v, k)
  {
    assert BeginsAnew(before, k, poll.now) <==> BeginsAnew(now, k, poll.now);
  }

  lemma ReportsOneMore(before: map<string, Row>, p: Progress, q: Progress, key: string, now: nat)
    requires Reports(p.submitted, p.activeKeys, before, now) && q.activeKeys == p.activeKeys + {key}
    requires q.submitted == p.submitted + if Submits(before, key, now) then [BeforeColon(key)] else []
    ensures Reports(q.submitted, q.activeKeys, before, now)
  {
    forall uid
      ensures uid in q.submitted <==> exists k :: k in q.activeKeys && Submits(before, k, now) && BeforeColon(k) == uid
    {
      if k :| k in q.activeKeys && Submits(before, k, now) && BeforeColon(k) == uid {
        assert k in p.activeKeys || k == key;
      }
      if uid in p.submitted {
        var k :| k in p.activeKeys && Submits(before, k, now) && BeforeColon(k) == uid;
        assert k in q.activeKeys;
      }
    }
  }

  lemma AlertIsHandled(env: Env, poll: Poll, before: map<string, Row>, i: nat, p: Progress)
    requires ValidEnv(env) && ProgressInv(env, poll, p) && !p.stopped && HandledInv(env, poll, before, p)
    requires i < |poll.alerts| && forall j :: 0 <= j < i ==> Noticed(env, poll.alerts[j], p.activeKeys)
    requires !HandleAlert(env, poll, i, p).stopped
    ensures HandledInv(env, poll, before, HandleAlert(env, poll, i, p))
  {
    var found := IncidentKey(poll.alerts[i], env);
    if found.Some? && found.value !in p.activeKeys {
      var key, q := found.value, HandleAlert(env, poll, i, p);
      assert FiresFirst(env, poll, key, i) by {
        forall j | 0 <= j < i ensures IncidentKey(poll.alerts[j], env) != Some(key) {
          assert Noticed(env, poll.alerts[j], p.activeKeys);
        }
      }
      HandleKeyDoes(env, poll, i, key, p);
      assert Untouched(before, p.world.rows, key);
      HandledSince(env, poll, before, p.world.rows, q.world, key);
      forall k | k in p.activeKeys ensures Handled(env, poll, before, q.world, k) {
        assert Handled(env, poll, before, p.world, k);
        StaysHandled(env, poll, before, p.world, q.world, k);
      }
      assert Submits(p.world.rows, key, poll.now) <==> Submits(before, key, poll.now);
      ReportsOneMore(before, p, q, key, poll.now);
    }
  }

  lemma {:induction false} AlertsAreHandled(env: Env, poll: Poll, before: map<string, Row>, i: nat, p: Progress)
    requires ValidEnv(env) && ProgressInv(env, poll, p) && HandledInv(env, poll, before, p)
    requires i <= |poll.alerts| && forall j :: 0 <= j < i ==> Noticed(env, poll.alerts[j], p.activeKeys)
    requires !p.stopped && !HandleFrom(env, poll, i, p).stopped
    ensures HandledInv(env, poll, before, HandleFrom(env, poll, i, p))
    decreases |poll.alerts| - i
  {
    if i < |poll.alerts| {
      var q := HandleAlert(env, poll, i, p);
      AlertIsHandled(env, poll, before, i, p);
      HandleAlertKeepsInv(env, poll, i, p);
      NoticedForGood(env, poll.alerts, i, p.activeKeys, q.activeKeys);
      AlertsAreHandled(env, poll, before, i + 1, q);
    }
  }

  ghost predicate ReportsSubmitted(env: Env, poll: Poll, before: map<string, Row>, submitted: seq<string>) {
    forall uid ::
      uid in submitted <==> exists k :: Fires(env, poll, k) && Submits(before, k, poll.now) && BeforeColon(k) == uid
  }

  /** What a poll has done to every incident, and what it reports. */
  ghost predicate Polled(env: Env, poll: Poll, before: map<string, Row>, w: World, submitted: seq<string>) {
    && (forall k | Fires(env, poll, k) :: Handled(env, poll, before, w, k))
    && (forall k | !Fires(env, poll, k) :: RowQuiet(poll, before, w.rows, k))
    && ReportsSubmitted(env, poll, before, submitted)
  }

  /**
   * A poll that is not stopped: every firing incident is active and submitted, with a new episode,
   * instruction and task exactly when it is new or was at rest for long enough; every other incident
   * is put to rest, if the poll clears, and otherwise left alone; and the rules of exactly the
   * incidents submitted now are reported.
   */
  lemma PollDoes(env: Env, poll: Poll, w: World, clock: nat)
    requires ValidEnv(env) && Inv(env, w, clock) && clock <= poll.now && !RunPoll(env, poll, w).stopped
    ensures Polled(env, poll, w.rows, RunPoll(env, poll, w).world, RunPoll(env, poll, w).submitted)
  {
    WaitKeepsInv(env, w, clock, poll.now);
    var start := Started(poll, w);
    var p := HandleFrom(env, poll, 0, start);
    AlertsAreHandled(env, poll, w.rows, 0, start);
    HandleFromKeepsInv(env, poll, 0, start);
    forall k ensures k in p.activeKeys <==> Fires(env, poll, k) {
      if Fires(env, poll, k) {
        var i: nat :| i < |poll.alerts| && IncidentKey(poll.alerts[i], env) == Some(k);
        assert Noticed(env, poll.alerts[i], p.activeKeys);
      }
    }
    ClearingDoes(env, poll, w.rows, p);
  }

  lemma ClearingDoes(env: Env, poll: Poll, before: map<string, Row>, p: Progress)
    requires HandledInv(env, poll, before, p) && forall k :: k in p.activeKeys <==> Fires(env, poll, k)
    requires !ClearMissing(poll, p).stopped
    ensures Polled(env, poll, before, ClearMissing(poll, p).world, ClearMissing(poll, p).submitted)
  {
    var q := ClearMissing(poll, p);
    forall k | Fires(env, poll, k) ensures Handled(env, poll, before, q.world, k) {
      assert Handled(env, poll, before, p.world, k);
      StaysHandled(env, poll, before, p.world, q.world, k);
    }
    forall k | !Fires(env, poll, k) ensures RowQuiet(poll, before, q.world.rows, k) {
      assert Untouched(before, p.world.rows, k);
    }
    ReportsFired(env, poll, before, q.submitted, p.activeKeys);
  }

  lemma ReportsFired(env: Env, poll: Poll, before: map<string, Row>, submitted: seq<string>, activeKeys: set<string>)
    requires Reports(submitted, activeKeys, before, poll.now)
    requires forall k :: k in activeKeys <==> Fires(env, poll, k)
    ensures ReportsSubmitted(env, poll, before, submitted)
  {
    forall uid
      ensures uid in submitted
        <==> exists k :: Fires(env, poll, k) && Submits(before, k, poll.now) && BeforeColon(k) == uid
    {
      if k :| Fires(env, poll, k) && Submits(before, k, poll.now) && BeforeColon(k) == uid {
        assert k in activeKeys;
      }
    }
  }

  /** Three durable effects for each alert and one for clearing are enough for a poll to complete. */
  lemma PollCompletes(env: Env, poll: Poll, w: World, clock: nat)
    requires ValidEnv(env) && Inv(env, w, clock) && clock <= poll.now
    requires poll.effects >= 3 * |poll.alerts| + 1 && forall uid :: uid in env.rules ==> ':' !in uid
    ensures !RunPoll(env, poll, w).stopped
  {
    WaitKeepsInv(env, w, clock, poll.now);
    AlertsComplete(env, poll, 0, Started(poll, w));
  }

  lemma {:induction false} AlertsComplete(env: Env, poll: Poll, i: nat, p: Progress)
    requires ValidEnv(env) && ProgressInv(env, poll, p) && !p.stopped && i <= |poll.alerts|
    requires p.effects >= 3 * (|poll.alerts| - i) + 1 && forall uid :: uid in env.rules ==> ':' !in uid
    ensures !HandleFrom(env, poll, i, p).stopped && HandleFrom(env, poll, i, p).effects > 0
    decreases |poll.alerts| - i
  {
    if i < |poll.alerts| {
      var q := HandleAlert(env, poll, i, p);
      var found := IncidentKey(poll.alerts[i], env);
      if found.Some? && found.value !in p.activeKeys {
        KeyNamesItsRule(poll.alerts[i], env);
        KeyCompletes(env, poll, i, found.value, p);
      }
      HandleAlertKeepsInv(env, poll, i, p);
      AlertsComplete(env, poll, i + 1, q);
    }
  }

  lemma KeyCompletes(env: Env, poll: Poll, i: nat, key: string, p: Progress)
    requires ValidEnv(env) && ProgressInv(env, poll, p) && !p.stopped && key !in p.activeKeys
    requires p.effects >= 4 && BeforeColon(key) in env.rules
    ensures
      var q := HandleKey(env, poll, i, key, p);
      !q.stopped && q.effects >= p.effects - 3
  {
    var r := Seen(env, poll, i, key, p);
    SeenKeepsInv(env, poll, i, key, p);
    HandleKeyGoesOn(env, poll, i, key, p);
    if !r.world.rows[key].submitted {
      SubmitKeepsInv(env, r.world, key, poll.now);
    }
  }

  lemma KeyKeepsTasks(env: Env, poll: Poll, i: nat, key: string, p: Progress)
    requires WellFormed(p.world.owner)
    ensures WellFormed(HandleKey(env, poll, i, key, p).world.owner)
    ensures forall id | id in p.world.owner.entries :: id in HandleKey(env, poll, i, key, p).world.owner.entries
  {
    var row := SeenRow(p.world.rows, key, poll.now, poll.instruction(i));
    var id := RequestId(env, key, row.firstSeen);
    var json := env.inputJson(id, env.identity, row.instruction);
    SubmittedKeepsWellFormed(p.world.owner, env.isTaskId, id, json, poll.now);
  }

  lemma {:induction false} AlertsKeepTasks(env: Env, poll: Poll, i: nat, p: Progress)
    requires WellFormed(p.world.owner) && i <= |poll.alerts|
    ensures forall id | id in p.world.owner.entries :: id in HandleFrom(env, poll, i, p).world.owner.entries
    decreases |poll.alerts| - i
  {
    if !p.stopped && i < |poll.alerts| {
      var found := IncidentKey(poll.alerts[i], env);
      if found.Some? {
        KeyKeepsTasks(env, poll, i, found.value, p);
      }
      AlertsKeepTasks(env, poll, i + 1, HandleAlert(env, poll, i, p));
    }
  }

  lemma ThreePolls(env: Env, one: Poll, two: Poll, three: Poll, w: World)
    ensures
      var b := RunPoll(env, two, RunPoll(env, one, w).world).world;
      RunPolls(env, [one, two, three], w) == RunPoll(env, three, b).world
  {
    assert [one, two, three][1..] == [two, three] && [two, three][1..] == [three] && [three][1..] == [];
    var a := RunPoll(env, one, w).world;
    assert RunPolls(env, [two, three], a) == RunPolls(env, [three], RunPoll(env, two, a).world);
  }

  /** After a poll the incident's row says when it was last submitted, and that was no later than the poll. */
  lemma FiredRow(env: Env, poll: Poll, w: World, clock: nat, key: string)
    requires ValidEnv(env) && Inv(env, w, clock) && clock <= poll.now && !RunPoll(env, poll, w).stopped
    requires Fires(env, poll, key)
    ensures
      var v := RunPoll(env, poll, w).world;
      && Inv(env, v, poll.now) && key in v.rows && v.rows[key].submitted && v.rows[key].firstSeen <= poll.now
      && v.rows[key].lastSubmitted.Some? && v.rows[key].lastSubmitted.value <= poll.now
      && RequestId(env, key, v.rows[key].firstSeen) in v.owner.entries
  {
    PollKeepsInv(env, poll, w, clock);
    PollDoes(env, poll, w, clock);
    var v := RunPoll(env, poll, w).world;
    assert Handled(env, poll, w.rows, v, key);
    assert RowInv(env, v.owner, key, v.rows[key], poll.now);
  }

  /**
   * An incident fires, is gone from a clearing poll, and fires again half an hour or more after its
   * submission: it has a second task, created then, besides the first.
   */
  lemma FiringAgainGetsATask(env: Env, one: Poll, two: Poll, three: Poll, w: World, clock: nat, key: string)
    requires ValidEnv(env) && Inv(env, w, clock) && ClockNeverGoesBack([one, two, three], clock)
    requires Fires(env, one, key) && !Fires(env, two, key) && Fires(env, three, key)
    requires two.clearMissing && three.now >= one.now + 1800
    requires
      var a := RunPoll(env, one, w);
      var b := RunPoll(env, two, a.world);
      !a.stopped && !b.stopped && !RunPoll(env, three, b.world).stopped
    ensures
      var a := RunPoll(env, one, w).world;
      var c := RunPoll(env, three, RunPoll(env, two, a).world).world;
      && RunPolls(env, [one, two, three], w) == c
      && key in a.rows && key in c.rows && a.rows[key].firstSeen < c.rows[key].firstSeen == three.now
      && RequestId(env, key, a.rows[key].firstSeen) in c.owner.entries
      && RequestId(env, key, three.now) in c.owner.entries
      && CreatedAt(c.owner, RequestId(env, key, three.now)) == three.now
  {
    var polls := [one, two, three];
    assert clock <= polls[0].now <= polls[1].now <= polls[2].now;
    var a := RunPoll(env, one, w).world;
    FiredRow(env, one, w, clock, key);
    PollDoes(env, two, a, one.now);
    PollKeepsInv(env, two, a, one.now);
    var b := RunPoll(env, two, a).world;
    assert RowQuiet(two, a.rows, b.rows, key);
    PollDoes(env, three, b, two.now);
    var c := RunPoll(env, three, b).world;
    assert BeginsAnew(b.rows, key, three.now);
    assert Handled(env, three, b.rows, c, key);
    ThreePolls(env, one, two, three, w);
    AlertsKeepTasks(env, two, 0, Started(two, a));
    AlertsKeepTasks(env, three, 0, Started(three, b));
  }

  // ---------------------------------------------------------------- the monitor object

  class StackAlertMonitor {
    const env: Env
    const owner: DurableTaskOwner
    var rows: map<string, Row>
    ghost var conflicts: nat

    ghost function State(): World
      reads this, owner
    {
      World(rows, owner.State(), conflicts)
    }

    constructor (env: Env, owner: DurableTaskOwner)
      ensures this.env == env && this.owner == owner && rows == map[] && conflicts == 0
    {
      this.env, this.owner := env, owner;
      rows, conflicts := map[], 0;
    }

    /** The body of the alert loop for a firing incident not yet seen in this poll. */
    method ProcessKey(poll: Poll, i: nat, key: string, budget: nat, ghost p: Progress)
      returns (effects: nat, stopped: bool, done: bool)
      requires owner.isTaskId == env.isTaskId
      requires p.world == State() && p.effects == budget && !p.stopped
      modifies this, owner
      ensures HandleKey(env, poll, i, key, p) ==
                Progress(State(), p.activeKeys + {key}, effects, stopped,
                         p.submitted + if done then [BeforeColon(key)] else [])
    {
      effects, stopped, done := budget, false, false;
      var uid := BeforeColon(key);
      var firstSeen, lastSubmitted, wasSubmitted, instruction := poll.now, None, false, "";
      if key in rows {
        var row := rows[key];
        firstSeen, lastSubmitted := row.firstSeen, row.lastSubmitted;
        wasSubmitted, instruction := row.submitted, row.instruction;
        if !row.active && row.submitted && lastSubmitted.Some? && poll.now - lastSubmitted.value >= COOLDOWN_SECONDS {
          if uid !in env.rules {
            stopped := true;
            return;
          }
          firstSeen, wasSubmitted, instruction := poll.now, false, poll.instruction(i);
        }
      } else {
        if uid !in env.rules {
          stopped := true;
          return;
        }
        instruction := poll.instruction(i);
      }
      if effects == 0 {
        stopped := true;
        return;
      }
      var row := Row(firstSeen, poll.now, lastSubmitted, true, wasSubmitted, instruction);
      assert row == SeenRow(rows, key, poll.now, poll.instruction(i));
      rows := rows[key := row];
      effects := effects - 1;
      ghost var r := Progress(State(), p.activeKeys + {key}, effects, false, p.submitted);
      if wasSubmitted {
        assert HandleKey(env, poll, i, key, p) == r;
        return;
      }
      assert HandleKey(env, poll, i, key, p) == SubmitEpisode(env, poll, key, row, r);
      if effects == 0 {
        stopped := true;
        return;
      }
      var requestId := RequestId(env, key, firstSeen);
      var result := owner.Submit(requestId, env.inputJson(requestId, env.identity, instruction), poll.now);
      effects := effects - 1;
      if result != Accepted {
        conflicts := conflicts + 1;
        stopped := true;
        return;
      }
      if effects == 0 {
        stopped := true;
        return;
      }
      rows := rows[key := rows[key].(submitted := true, lastSubmitted := Some(poll.now))];
      effects := effects - 1;
      done := true;
    }

    /** One call of `process_alerts`, living to perform at most `poll.effects` durable effects. */
    method ProcessAlerts(poll: Poll) returns (submitted: seq<string>, stopped: bool)
      requires owner.isTaskId == env.isTaskId
      modifies this, owner
      ensures RunPoll(env, poll, old(State())).world == State()
      ensures RunPoll(env, poll, old(State())).stopped == stopped
      ensures RunPoll(env, poll, old(State())).submitted == submitted
    {
      var activeKeys: set<string> := {};
      var effects := poll.effects;
      submitted, stopped := [], false;
      ghost var start := Started(poll, State());
      var i := 0;
      while i < |poll.alerts| && !stopped
        invariant i <= |poll.alerts|
        invariant HandleFrom(env, poll, i, Progress(State(), activeKeys, effects, stopped, submitted))
          == HandleFrom(env, poll, 0, start)
      {
        ghost var p := Progress(State(), activeKeys, effects, stopped, submitted);
        var key := ComputeIncidentKey(poll.alerts[i], env);
        if key.Some? && key.value !in activeKeys {
          var done;
          effects, stopped, done := ProcessKey(poll, i, key.value, effects, p);
          activeKeys := activeKeys + {key.value};
          submitted := submitted + if done then [BeforeColon(key.value)] else [];
        }
        i := i + 1;
      }
      if poll.clearMissing && !stopped {
        if effects == 0 {
          stopped := true;
          return;
        }
        rows := Cleared(rows, activeKeys);
        effects := effects - 1;
      }
    }
  }
}
