/** The outbox (src/agentforge/core/outbox.py) and the guard's two operations on it
    (src/agentforge/core/side_effects.py): one attempt at an effect, and undoing an instance's effects. */
module Outbox {
  import opened Domain
  import opened SideEffects

  datatype Entry = Entry(
    key: string,
    instanceId: string,
    tenantId: string,
    row: OutboxRow,
    compensation: Option<string>)

  predicate Belongs(e: Entry, instance: string, tenant: string) {
    e.instanceId == instance && e.tenantId == tenant && e.row.status == EffExecuted
  }

  predicate Ordered(rows: map<string, Entry>, order: seq<string>) {
    forall k :: 0 <= k < |order| ==> order[k] in rows
  }

  /** The executed effects of an instance, oldest first. */
  function Executed(rows: map<string, Entry>, order: seq<string>, instance: string, tenant: string): seq<string>
    requires Ordered(rows, order)
  {
    if order == [] then []
    else (if Belongs(rows[order[0]], instance, tenant) then [order[0]] else [])
         + Executed(rows, order[1..], instance, tenant)
  }

  lemma {:induction false} ExecutedMeans(rows: map<string, Entry>, order: seq<string>, instance: string, tenant: string,
                                         key: string)
    requires Ordered(rows, order)
    ensures key in Executed(rows, order, instance, tenant)
            <==> && key in order && rows[key].row.status == EffExecuted
                 && rows[key].instanceId == instance && rows[key].tenantId == tenant
    decreases |order|
  {
    if order != [] {
      ExecutedMeans(rows, order[1..], instance, tenant, key);
      assert order == [order[0]] + order[1..];
    }
  }

  predicate Distinct(keys: seq<string>) {
    forall j, k :: 0 <= j < k < |keys| ==> keys[j] != keys[k]
  }

  lemma {:induction false} ExecutedDistinct(rows: map<string, Entry>, order: seq<string>, instance: string,
                                            tenant: string)
    requires Distinct(order) && Ordered(rows, order)
    ensures Distinct(Executed(rows, order, instance, tenant))
    decreases |order|
  {
    if order != [] {
      ExecutedDistinct(rows, order[1..], instance, tenant);
      ExecutedMeans(rows, order[1..], instance, tenant, order[0]);
    }
  }

  /** The one key was claimed before the other. */
  ghost predicate Older(order: seq<string>, a: string, b: string) {
    forall m, n :: 0 <= m < |order| && 0 <= n < |order| && order[m] == a && order[n] == b ==> m < n
  }

  /** The list names the keys in the order they were claimed. */
  lemma {:induction false} ExecutedInOrder(rows: map<string, Entry>, order: seq<string>, instance: string,
                                           tenant: string, j: nat, k: nat)
    requires Distinct(order) && Ordered(rows, order) && j < k < |Executed(rows, order, instance, tenant)|
    ensures Older(order, Executed(rows, order, instance, tenant)[j], Executed(rows, order, instance, tenant)[k])
    decreases |order|
  {
    var all, rest := Executed(rows, order, instance, tenant), Executed(rows, order[1..], instance, tenant);
    var n := |all| - |rest|;
    assert all[k] == rest[k - n] && rest[k - n] in rest;
    ExecutedMeans(rows, order[1..], instance, tenant, rest[k - n]);
    if j >= n {
      assert all[j] == rest[j - n];
      ExecutedInOrder(rows, order[1..], instance, tenant, j - n, k - n);
      TailOlder(order, all[j], all[k]);
    }
  }

  lemma TailOlder(order: seq<string>, a: string, b: string)
    requires order != [] && Distinct(order) && Older(order[1..], a, b) && b in order[1..]
    ensures Older(order, a, b)
  {
    forall m, n | 0 <= m < |order| && 0 <= n < |order| && order[m] == a && order[n] == b ensures m < n {
      var l :| 0 <= l < |order[1..]| && order[1..][l] == b;
      assert order[l + 1] == b && n == l + 1;
      if m > 0 { assert order[1..][m - 1] == a && order[1..][n - 1] == b; }
    }
  }

  /** Marking one executed key takes exactly that key out of the list. */
  lemma {:induction false} MarkedDropsOut(rows: map<string, Entry>, order: seq<string>, instance: string,
                                          tenant: string, key: string, e: Entry)
    requires Distinct(order) && Ordered(rows, order)
    requires key in rows && e.row.status != EffExecuted
    ensures Executed(rows[key := e], order, instance, tenant) == Without(Executed(rows, order, instance, tenant), key)
    decreases |order|
  {
    if order != [] {
      MarkedDropsOut(rows, order[1..], instance, tenant, key, e);
      ConsWithout(order[0], Executed(rows, order[1..], instance, tenant), key);
      assert [] + Executed(rows, order[1..], instance, tenant) == Executed(rows, order[1..], instance, tenant);
      assert [] + Executed(rows[key := e], order[1..], instance, tenant)
             == Executed(rows[key := e], order[1..], instance, tenant);
    }
  }

  function Without(keys: seq<string>, key: string): seq<string> {
    if keys == [] then [] else (if keys[0] == key then [] else [keys[0]]) + Without(keys[1..], key)
  }

  lemma {:induction false} ConsWithout(x: string, keys: seq<string>, key: string)
    ensures Without([x] + keys, key) == (if x == key then [] else [x]) + Without(keys, key)
  {
    assert ([x] + keys)[1..] == keys;
  }

  lemma {:induction false} WithoutLast(keys: seq<string>)
    requires Distinct(keys) && keys != []
    ensures Without(keys, keys[|keys| - 1]) == keys[..|keys| - 1]
    decreases |keys|
  {
    var last := keys[|keys| - 1];
    if |keys| == 1 {
      assert Without(keys[1..], last) == [];
    } else {
      assert keys[1..][|keys[1..]| - 1] == last;
      WithoutLast(keys[1..]);
    }
  }

  /** The list names the newest of the given keys, newest first. */
  predicate NewestFirst(undone: seq<string>, was: seq<string>) {
    |undone| <= |was| && forall k :: 0 <= k < |undone| ==> undone[k] == was[|was| - 1 - k]
  }

  class Box {
    var rows: map<string, Entry>
    var order: seq<string>

    ghost predicate Valid()
      reads this
    {
      Distinct(order) && Ordered(rows, order) && rows.Keys == (set key | key in order)
    }

    ghost predicate Recorded()
      reads this
    {
      AllRecorded(rows)
    }

    function Row(key: string): Option<OutboxRow>
      reads this
    {
      if key in rows then Some(rows[key].row) else None
    }

    constructor ()
      ensures Valid() && rows == map[]
    {
      rows, order := map[], [];
    }

    /** `claim`: a new key starts pending with one attempt, a known one counts another attempt. */
    method Claim(entry: Entry) returns (e: Entry)
      requires Valid()
      modifies this
      ensures Valid() && rows == old(rows)[entry.key := e]
      ensures order == if entry.key in old(rows) then old(order) else old(order) + [entry.key]
      ensures entry.key in old(rows) ==>
                var known := old(rows[entry.key]);
                e == known.(row := known.row.(attempts := known.row.attempts + 1))
      ensures entry.key !in old(rows) ==> e == entry.(row := OutboxRow(EffPending, 1, None))
    {
      if entry.key in rows {
        var known := rows[entry.key];
        e := known.(row := known.row.(attempts := known.row.attempts + 1));
        rows := rows[entry.key := e];
      } else {
        e := entry.(row := OutboxRow(EffPending, 1, None));
        rows, order := rows[entry.key := e], order + [entry.key];
      }
    }

    /** `mark`: an unknown key is ignored. */
    method Mark(key: string, status: Option<EffectState>, result: Option<EffectResult>, compensation: Option<string>)
      requires Valid()
      modifies this`rows
      ensures Valid() && rows.Keys == old(rows.Keys)
      ensures key !in old(rows) ==> rows == old(rows)
      ensures key in old(rows) ==> rows == old(rows)[key := Marked(old(rows[key]), status, result, compensation)]
    {
      if key !in rows { return; }
      rows := rows[key := Marked(rows[key], status, result, compensation)];
    }

    /** One uninterrupted attempt: claim, ask or call the provider, mark; other keys are untouched. */
    method Execute(entry: Entry, honours: bool, landed: seq<EffectResult>, raises: bool, reply: Reply)
      returns (told: Option<EffectResult>, now: seq<EffectResult>)
      requires Valid() && Recorded()
      modifies this
      ensures Valid() && Recorded() && forall key :: key != entry.key ==> Row(key) == old(Row(key))
      ensures Attempted(old(Row(entry.key)), landed, honours, raises, reply)
              == Resting(Row(entry.key), now, if told.Some? then [told.value] else [], 0)
      ensures Reversals(rows) == old(Reversals(rows))
    {
      var row := Claim(entry);
      OneEntryMoved(old(rows), entry.key, row);
      if row.row.status == EffExecuted { return row.row.result, landed; }
      if row.row.status == EffCompensated { return None, landed; }
      var contact := Contact(honours, row.row.attempts > 1, landed, raises, reply);
      told, now := contact.0, contact.1;
      ghost var e := Marked(row, Some(if told.None? then EffFailed else EffExecuted), told, None);
      Mark(entry.key, Some(if told.None? then EffFailed else EffExecuted), told, None);
      assert old(rows)[entry.key := row][entry.key := e] == old(rows)[entry.key := e];
      OneEntryMoved(old(rows), entry.key, e);
    }

    /** The undo has come down to `left`: the newer keys are compensated, the older ones still executed. */
    ghost predicate DownTo(instance: string, tenant: string, start: map<string, Entry>, was: seq<string>, left: nat)
      reads this
    {
      && Valid() && left <= |was| && Executed(rows, order, instance, tenant) == was[..left]
      && UndoneFrom(start, rows, was, left) && Spared(start, rows, was)
    }

    /** The newest executed effect is undone: it alone leaves the list. */
    method UndoNewest(instance: string, tenant: string, ghost start: map<string, Entry>, was: seq<string>, left: nat)
      requires left > 0 && Distinct(was) && DownTo(instance, tenant, start, was, left)
      modifies this`rows
      ensures DownTo(instance, tenant, start, was, left - 1)
    {
      var key := was[left - 1];
      NextUndo(was, left);
      ExecutedMeans(rows, order, instance, tenant, key);
      var e := Marked(rows[key], Some(EffCompensated), None, Some("done"));
      MarkedDropsOut(rows, order, instance, tenant, key, e);
      WithoutLast(was[..left]);
      OneMoreUndone(start, rows, was, left, e);
      Mark(key, Some(EffCompensated), None, Some("done"));
    }

    method NoteFailure(instance: string, tenant: string, ghost start: map<string, Entry>, was: seq<string>, left: nat)
      requires left > 0 && Distinct(was) && DownTo(instance, tenant, start, was, left)
      modifies this`rows
      ensures DownTo(instance, tenant, start, was, left)
      ensures was[left - 1] in rows && rows[was[left - 1]].compensation == Some("failed")
    {
      var key := was[left - 1];
      NextUndo(was, left);
      ExecutedMeans(rows, order, instance, tenant, key);
      MarkKeeps(rows, order, instance, tenant, key, rows[key].(compensation := Some("failed")));
      OneMoreMarked(start, rows, was, left, rows[key].(compensation := Some("failed")));
      Mark(key, None, None, Some("failed"));
    }

    /** The loop of a compensation, up to the first undo that goes wrong. */
    method UndoSome(instance: string, tenant: string, fate: string -> Fate, ghost start: map<string, Entry>,
                    was: seq<string>)
      returns (undone: seq<string>, left: nat)
      requires Distinct(was) && DownTo(instance, tenant, start, was, |was|)
      modifies this`rows
      ensures left <= |was| && |undone| == |was| - left && NewestFirst(undone, was)
      ensures DownTo(instance, tenant, start, was, left) && (left > 0 ==> fate(was[left - 1]) != Undoes)
    {
      undone, left := [], |was|;
      while left > 0 && fate(was[left - 1]) == Undoes
        invariant left <= |was| && |undone| == |was| - left && NewestFirst(undone, was)
        invariant DownTo(instance, tenant, start, was, left)
      {
        UndoNewest(instance, tenant, start, was, left);
        undone, left := undone + [was[left - 1]], left - 1;
      }
    }

    /** `compensate_instance`: newest first; a failure, or a crash after the provider's undo, leaves exactly
        an oldest-first prefix executed. */
    method Compensate(instance: string, tenant: string, fate: string -> Fate)
      returns (undone: seq<string>, ended: Ended)
      requires Valid()
      modifies this`rows
      ensures NewestFirst(undone, old(Executed(rows, order, instance, tenant)))
      ensures var was := old(Executed(rows, order, instance, tenant));
              var left := |was| - |undone|;
              && DownTo(instance, tenant, old(rows), was, left)
              && ended == Ending(was, left, fate)
      ensures ended.RefusedAt? ==> ended.key in rows && rows[ended.key].compensation == Some("failed")
    {
      var was := Executed(rows, order, instance, tenant);
      NothingUndone(rows, order, instance, tenant);
      var left;
      undone, left := UndoSome(instance, tenant, fate, old(rows), was);
      if left == 0 { return undone, Finished; }
      if fate(was[left - 1]) == Dies { return undone, DiedAt(was[left - 1]); }
      NoteFailure(instance, tenant, old(rows), was, left);
      ended := RefusedAt(was[left - 1]);
    }

    /** One call, with the keys the provider undid and those on which the compensation died. */
    method Serve(request: Request, landed: seq<EffectResult>)
      returns (reversed: seq<string>, lost: seq<string>, now: seq<EffectResult>)
      requires Valid() && Recorded()
      modifies this
      ensures Valid() && Recorded() && Tallied(old(Reversals(rows)), Reversals(rows), reversed, lost)
    {
      reversed, lost, now := [], [], landed;
      match request {
        case Attempt(entry, honours, raises, reply) =>
          var told;
          told, now := Execute(entry, honours, landed, raises, reply);
        case Undo(instance, tenant, fate) =>
          var ended;
          reversed, ended := Compensate(instance, tenant, fate);
          CompensateTally(old(rows), rows, order, instance, tenant, reversed);
          CompensateRecords(old(rows), rows, Executed(old(rows), order, instance, tenant),
                            |Executed(old(rows), order, instance, tenant)| - |reversed|);
          SetOfDistinct(reversed);
          if ended.DiedAt? { reversed, lost := reversed + [ended.key], [ended.key]; }
      }
    }

    /** Any series of attempts and compensations, one after the other. Each key has been undone at the
        provider once for every compensation that died on it, and once more if it is compensated now and was
        not before. So as long as no compensation dies, no key is ever undone twice. */
    method Series(requests: seq<Request>, provider: map<string, seq<EffectResult>>)
      returns (reversed: seq<string>, lost: seq<string>)
      requires Valid() && Recorded()
      modifies this
      ensures Valid() && Recorded() && Tallied(old(Reversals(rows)), Reversals(rows), reversed, lost)
      ensures lost == [] ==> Distinct(reversed)
    {
      reversed, lost := [], [];
      var landed := provider;
      for n := 0 to |requests|
        invariant Valid() && Recorded() && Tallied(old(Reversals(rows)), Reversals(rows), reversed, lost)
      {
        ghost var before := Reversals(rows);
        var key := if requests[n].Attempt? then requests[n].entry.key else "";
        var r, l, now := Serve(requests[n], if key in landed then landed[key] else []);
        if requests[n].Attempt? { landed := landed[key := now]; }
        TallyChain(old(Reversals(rows)), before, Reversals(rows), reversed, lost, r, l);
        reversed, lost := reversed + r, lost + l;
      }
      if lost == [] { SetIsDistinct(reversed, Reversals(rows) - old(Reversals(rows))); }
    }
  }

  /** The keys undone at the provider, each counted, are those lost and those newly compensated. */
  ghost predicate Tallied(before: set<string>, after: set<string>, reversed: seq<string>, lost: seq<string>) {
    before <= after && multiset(reversed) == multiset(lost) + multiset(after - before)
  }

  lemma TallyChain(a: set<string>, b: set<string>, c: set<string>, r: seq<string>, l: seq<string>, r': seq<string>,
                   l': seq<string>)
    requires Tallied(a, b, r, l) && Tallied(b, c, r', l')
    ensures Tallied(a, c, r + r', l + l')
  {
    assert c - a == (b - a) + (c - b);
    assert multiset((b - a) + (c - b)) == multiset(b - a) + multiset(c - b);
  }

  /** What the provider makes of an undo: done, refused, or done while the caller dies before its mark. */
  datatype Fate = Undoes | Refuses | Dies

  datatype Ended = Finished | RefusedAt(key: string) | DiedAt(key: string)

  /** How a compensation ends that has come down to `left`. */
  ghost function Ending(was: seq<string>, left: nat, fate: string -> Fate): Ended
    requires left <= |was|
  {
    if left == 0 then Finished
    else if fate(was[left - 1]) == Dies then DiedAt(was[left - 1])
    else RefusedAt(was[left - 1])
  }

  datatype Request =
    | Attempt(entry: Entry, honours: bool, raises: bool, reply: Reply)
    | Undo(instance: string, tenant: string, fate: string -> Fate)

  /** An executed row carries its result. */
  ghost predicate AllRecorded(rows: map<string, Entry>) {
    forall key :: key in rows ==> RowRecorded(rows[key].row)
  }

  predicate RowRecorded(row: OutboxRow) {
    row.status == EffExecuted ==> row.result.Some?
  }

  /** Changing one entry compensates nothing unless that entry is compensated by the change. */
  lemma OneEntryMoved(rows: map<string, Entry>, key: string, e: Entry)
    requires AllRecorded(rows) && RowRecorded(e.row)
    requires e.row.status == EffCompensated <==> key in rows && rows[key].row.status == EffCompensated
    ensures AllRecorded(rows[key := e]) && Reversals(rows[key := e]) == Reversals(rows)
  {
  }

  /** The compensated keys. */
  ghost function Reversals(rows: map<string, Entry>): set<string> {
    set key | key in rows && rows[key].row.status == EffCompensated
  }

  /** What a compensation did to one key: undone if it is in its list of undone keys, else as it was. */
  lemma CompensatedKey(before: map<string, Entry>, rows: map<string, Entry>, order: seq<string>, instance: string,
                       tenant: string, undone: seq<string>, key: string)
    requires Ordered(before, order) && NewestFirst(undone, Executed(before, order, instance, tenant)) && key in rows
    requires Distinct(Executed(before, order, instance, tenant))
             && Spared(before, rows, Executed(before, order, instance, tenant))
    requires UndoneFrom(before, rows, Executed(before, order, instance, tenant),
                        |Executed(before, order, instance, tenant)| - |undone|)
    ensures key in undone ==> key in Reversals(rows) && key !in Reversals(before)
    ensures key !in undone ==> (key in Reversals(rows) <==> key in Reversals(before))
  {
    var was := Executed(before, order, instance, tenant);
    UndoneDistinct(undone, was);
    assert SparedAt(before, rows, was, key);
    if key in was {
      var k :| 0 <= k < |was| && was[k] == key;
      ExecutedMeans(before, order, instance, tenant, key);
      UndoneIndex(undone, was, k);
    }
  }

  lemma UndoneIndex(undone: seq<string>, was: seq<string>, k: nat)
    requires Distinct(was) && NewestFirst(undone, was) && k < |was|
    ensures was[k] in undone <==> k >= |was| - |undone|
  {
    if k >= |was| - |undone| {
      assert undone[|was| - 1 - k] == was[k];
    } else {
      forall n | 0 <= n < |undone| ensures undone[n] != was[k] {
        assert undone[n] == was[|was| - 1 - n];
      }
    }
  }

  lemma UndoneDistinct(undone: seq<string>, was: seq<string>)
    requires Distinct(was) && NewestFirst(undone, was)
    ensures Distinct(undone) && forall key :: key in undone ==> key in was
  {
    forall j, k | 0 <= j < k < |undone| ensures undone[j] != undone[k] {
      assert was[|was| - 1 - k] != was[|was| - 1 - j];
    }
  }

  /** A compensation adds exactly what it undid, each key once, to the compensated keys. */
  lemma CompensateTally(before: map<string, Entry>, rows: map<string, Entry>, order: seq<string>, instance: string,
                        tenant: string, undone: seq<string>)
    requires Ordered(before, order) && Distinct(order) && before.Keys == rows.Keys
    requires NewestFirst(undone, Executed(before, order, instance, tenant))
    requires Spared(before, rows, Executed(before, order, instance, tenant))
    requires UndoneFrom(before, rows, Executed(before, order, instance, tenant),
                        |Executed(before, order, instance, tenant)| - |undone|)
    ensures Distinct(undone) && Reversals(before) <= Reversals(rows)
    ensures Reversals(rows) - Reversals(before) == (set key | key in undone)
  {
    var was := Executed(before, order, instance, tenant);
    ExecutedDistinct(before, order, instance, tenant);
    UndoneDistinct(undone, was);
    forall key | key in rows
      ensures key in undone ==> key in Reversals(rows) && key !in Reversals(before)
      ensures key !in undone ==> (key in Reversals(rows) <==> key in Reversals(before))
    {
      CompensatedKey(before, rows, order, instance, tenant, undone, key);
    }
    forall key | key in undone ensures key in rows {
      var k :| 0 <= k < |was| && was[k] == key;
    }
  }

  lemma CompensateRecords(before: map<string, Entry>, rows: map<string, Entry>, was: seq<string>, left: nat)
    requires AllRecorded(before) && before.Keys == rows.Keys && UndoneFrom(before, rows, was, left)
             && Spared(before, rows, was)
    ensures AllRecorded(rows)
  {
    forall key | key in rows ensures RowRecorded(rows[key].row) {
      if key in was {
        var k :| 0 <= k < |was| && was[k] == key;
        assert RowRecorded(before[was[k]].row);
      } else {
        assert SparedAt(before, rows, was, key) && RowRecorded(before[key].row);
      }
    }
  }

  lemma {:induction false} SetOfDistinct(keys: seq<string>)
    requires Distinct(keys)
    ensures multiset(keys) == multiset(set key | key in keys)
  {
    var s := set key | key in keys;
    forall key ensures multiset(keys)[key] == multiset(s)[key] {
      if key in keys {
        var k :| 0 <= k < |keys| && keys[k] == key;
        assert keys == keys[..k] + [key] + keys[k + 1..];
        assert key !in keys[..k] && key !in keys[k + 1..];
      }
    }
  }

  lemma SetIsDistinct(keys: seq<string>, s: set<string>)
    requires multiset(keys) == multiset(s)
    ensures Distinct(keys)
  {
    forall j, k | 0 <= j < k < |keys| ensures keys[j] != keys[k] {
      assert keys == keys[..k] + keys[k..];
      assert keys[j] == keys[..k][j] && keys[k] == keys[k..][0];
      assert multiset(keys)[keys[j]] == multiset(keys[..k])[keys[j]] + multiset(keys[k..])[keys[j]];
      assert keys[j] in multiset(keys[..k]) && keys[k] in multiset(keys[k..]);
    }
  }

  lemma NothingUndone(rows: map<string, Entry>, order: seq<string>, instance: string, tenant: string)
    requires Distinct(order) && Ordered(rows, order)
    ensures var was := Executed(rows, order, instance, tenant);
            Distinct(was) && was == was[..|was|] && UndoneFrom(rows, rows, was, |was|) && Spared(rows, rows, was)
  {
    var was := Executed(rows, order, instance, tenant);
    ExecutedDistinct(rows, order, instance, tenant);
    forall k | 0 <= k < |was| ensures was[k] in rows {
      ExecutedMeans(rows, order, instance, tenant, was[k]);
    }
  }

  lemma NextUndo(was: seq<string>, left: nat)
    requires 0 < left <= |was|
    ensures was[..left] != [] && was[..left][left - 1] == was[left - 1] && was[left - 1] in was[..left]
    ensures was[..left][..left - 1] == was[..left - 1]
  {
    assert was[..left][left - 1] == was[left - 1];
  }

  lemma OneMoreUndone(start: map<string, Entry>, rows: map<string, Entry>, was: seq<string>, left: nat, e: Entry)
    requires 0 < left <= |was| && Distinct(was) && UndoneFrom(start, rows, was, left) && Spared(start, rows, was)
    requires e.row == UndoneRow(rows[was[left - 1]].row, Undoes) && e.compensation == Some("done")
    ensures UndoneFrom(start, rows[was[left - 1] := e], was, left - 1) && Spared(start, rows[was[left - 1] := e], was)
  {
    var after := rows[was[left - 1] := e];
    forall key ensures SparedAt(start, after, was, key) {
      assert SparedAt(start, rows, was, key);
    }
  }

  lemma OneMoreMarked(start: map<string, Entry>, rows: map<string, Entry>, was: seq<string>, left: nat, e: Entry)
    requires 0 < left <= |was| && Distinct(was) && UndoneFrom(start, rows, was, left) && Spared(start, rows, was)
    requires e.row == rows[was[left - 1]].row
    ensures UndoneFrom(start, rows[was[left - 1] := e], was, left) && Spared(start, rows[was[left - 1] := e], was)
  {
    var after := rows[was[left - 1] := e];
    forall key ensures SparedAt(start, after, was, key) {
      assert SparedAt(start, rows, was, key);
    }
  }

  /** What a compensation makes of an executed row. */
  function UndoneRow(row: OutboxRow, fate: Fate): OutboxRow {
    if fate == Undoes then row.(status := EffCompensated) else row
  }

  /** The newer rows of the list are compensated, the older ones are as they were. */
  ghost predicate UndoneFrom(start: map<string, Entry>, rows: map<string, Entry>, was: seq<string>, left: nat) {
    forall k :: 0 <= k < |was| ==>
                  && was[k] in start && was[k] in rows
                  && rows[was[k]].row == UndoneRow(start[was[k]].row, if k < left then Refuses else Undoes)
                  && (k >= left ==> rows[was[k]].compensation == Some("done"))
  }

  /** Entries outside the list are as they were. */
  ghost predicate Spared(before: map<string, Entry>, rows: map<string, Entry>, was: seq<string>) {
    forall key {:trigger SparedAt(before, rows, was, key)} :: SparedAt(before, rows, was, key)
  }

  predicate SparedAt(before: map<string, Entry>, rows: map<string, Entry>, was: seq<string>, key: string) {
    key in rows && key !in was ==> key in before && rows[key] == before[key]
  }

  lemma {:induction false} MarkKeeps(rows: map<string, Entry>, order: seq<string>, instance: string, tenant: string,
                                     key: string, e: Entry)
    requires Ordered(rows, order) && key in rows
    requires Belongs(e, instance, tenant) == Belongs(rows[key], instance, tenant)
    ensures Executed(rows[key := e], order, instance, tenant) == Executed(rows, order, instance, tenant)
    decreases |order|
  {
    if order != [] { MarkKeeps(rows, order[1..], instance, tenant, key, e); }
  }

  function Marked(e: Entry, status: Option<EffectState>, result: Option<EffectResult>,
                  compensation: Option<string>): Entry {
    e.(row := e.row.(status := if status.Some? then status.value else e.row.status,
                     result := if result.Some? then result else e.row.result),
       compensation := if compensation.Some? then compensation else e.compensation)
  }

  function Script(raises: bool, reply: Reply): seq<Act> {
    [SideEffects.Claim(0), Reconcile(0, raises), Call(0, reply), Report(0)]
  }

  lemma RunScript(c: Cell, honours: bool, raises: bool, reply: Reply)
    ensures Run(c, honours, Script(raises, reply))
            == DoReport(DoCall(DoReconcile(DoClaim(c, 0), honours, 0, raises), honours, 0, reply), 0)
  {
    var xs := Script(raises, reply);
    var c1 := Apply(c, honours, xs[0]);
    var c2 := Apply(c1, honours, xs[1]);
    var c3 := Apply(c2, honours, xs[2]);
    var c4 := Apply(c3, honours, xs[3]);
    assert xs[1..][1..] == xs[2..] && xs[2..][1..] == xs[3..] && xs[3..][1..] == [];
    assert Run(c, honours, xs) == Run(c1, honours, xs[1..]) == Run(c2, honours, xs[2..]) == Run(c3, honours, xs[3..]);
    assert Run(c3, honours, xs[3..]) == Run(c4, honours, []);
  }

  /** What the provider tells an attempt that got past the claim, and what has landed afterwards. */
  function Contact(honours: bool, resuming: bool, landed: seq<EffectResult>, raises: bool, reply: Reply)
    : (Option<EffectResult>, seq<EffectResult>)
  {
    if resuming && !honours && raises then (None, landed)
    else if resuming && !honours && landed != [] then (Some(landed[0]), landed)
    else
      match reply
      case Refused => (None, landed)
      case LostReply(r) => (None, Landing(landed, honours, r))
      case Answered(r) => (Some(if honours && landed != [] then landed[0] else r), Landing(landed, honours, r))
  }

  function ClaimedRow(row: Option<OutboxRow>): OutboxRow {
    if row.None? then OutboxRow(EffPending, 1, None) else row.value.(attempts := row.value.attempts + 1)
  }

  /** A cell with nothing in flight. */
  function Resting(row: Option<OutboxRow>, landed: seq<EffectResult>, outcomes: seq<EffectResult>, undone: nat): Cell {
    Cell(row, landed, map[], outcomes, map[], undone)
  }

  function Attempted(row: Option<OutboxRow>, landed: seq<EffectResult>, honours: bool, raises: bool, reply: Reply): Cell
    requires row.Some? && row.value.status == EffExecuted ==> row.value.result.Some?
  {
    var r := ClaimedRow(row);
    if r.status == EffExecuted then Resting(Some(r), landed, [r.result.value], 0)
    else if r.status == EffCompensated then Resting(Some(r), landed, [], 0)
    else Contacted(r, Contact(honours, r.attempts > 1, landed, raises, reply))
  }

  function Contacted(r: OutboxRow, c: (Option<EffectResult>, seq<EffectResult>)): Cell {
    if c.0.None? then Resting(Some(r.(status := EffFailed)), c.1, [], 0)
    else Resting(Some(r.(status := EffExecuted, result := c.0)), c.1, [c.0.value], 0)
  }

  /** The attempt asks the provider what became of an earlier one. */
  predicate Asks(row: Option<OutboxRow>, honours: bool) {
    row.Some? && row.value.attempts >= 1 && !honours
  }

  /** What one attempt at an effect does. An executed effect answers with its stored result and a compensated one
      is refused, both without contacting the provider. Otherwise the attempt succeeds exactly if it asked and
      found the effect landed, or called and was answered; a success is on record as executed with the very
      result the caller was told, anything else as failed; and the effect lands exactly if the provider was
      called, did not refuse, and did not recognise the key of an effect it already had. */
  lemma AttemptMeans(row: Option<OutboxRow>, landed: seq<EffectResult>, honours: bool, raises: bool, reply: Reply)
    requires row.Some? ==> RowRecorded(row.value)
    ensures var c := Attempted(row, landed, honours, raises, reply);
            var found := Asks(row, honours) && !raises && landed != [];
            var calls := !Asks(row, honours) || (!raises && landed == []);
            && c.row.Some? && c.row.value.attempts == (if row.None? then 1 else row.value.attempts + 1)
            && (row.Some? && row.value.status == EffExecuted ==>
                  && c.row.value == row.value.(attempts := row.value.attempts + 1)
                  && c.outcomes == [row.value.result.value] && c.landed == landed)
            && (row.Some? && row.value.status == EffCompensated ==>
                  && c.row.value == row.value.(attempts := row.value.attempts + 1)
                  && c.outcomes == [] && c.landed == landed)
            && (row.None? || row.value.status == EffPending || row.value.status == EffFailed ==>
                  && (c.outcomes != [] <==> found || (calls && reply.Answered?))
                  && (c.outcomes == [] ==> c.row.value.status == EffFailed)
                  && (c.outcomes != [] ==>
                        && c.row.value.status == EffExecuted && |c.outcomes| == 1
                        && c.row.value.result == Some(c.outcomes[0])
                        && c.outcomes[0] == if landed != [] && (found || honours) then landed[0] else reply.result)
                  && c.landed == landed + if calls && !reply.Refused? && !(honours && landed != [])
                                          then [reply.result] else [])
  {
    if row.None? || row.value.status == EffPending || row.value.status == EffFailed {
      assert landed + [] == landed;
    }
  }

  /** An uninterrupted attempt is one run of the protocol: claim, reconcile, call, report. What holds in
      every interleaving therefore holds of it. */
  lemma AttemptIsARun(row: Option<OutboxRow>, landed: seq<EffectResult>, honours: bool, raises: bool, reply: Reply)
    requires row.Some? && row.value.status == EffExecuted ==> row.value.result.Some?
    ensures Run(Resting(row, landed, [], 0), honours, Script(raises, reply))
            == Attempted(row, landed, honours, raises, reply)
  {
    RunScript(Resting(row, landed, [], 0), honours, raises, reply);
    var r := ClaimedRow(row);
    if r.status == EffPending || r.status == EffFailed { Flight(r, landed, honours, raises, reply); }
  }

  lemma Flight(r: OutboxRow, landed: seq<EffectResult>, honours: bool, raises: bool, reply: Reply)
    requires r.status == EffPending || r.status == EffFailed
    ensures var c := Resting(Some(r), landed, [], 0).(flying := map[0 := Claimed(r.attempts > 1)]);
            DoReport(DoCall(DoReconcile(c, honours, 0, raises), honours, 0, reply), 0)
            == Contacted(r, Contact(honours, r.attempts > 1, landed, raises, reply))
  {
    var c1 := Resting(Some(r), landed, [], 0).(flying := map[0 := Claimed(r.attempts > 1)]);
    var c2 := DoReconcile(c1, honours, 0, raises);
    var c3 := DoCall(c2, honours, 0, reply);
    assert c3.flying - {0} == map[];
  }

  function UndoScript(fate: Fate): seq<Act> {
    [UndoList(0), UndoCall(0, match fate case Undoes => UndoAnswered case Refuses => UndoRefused case Dies => UndoLost),
     UndoMark(0)]
  }

  /** What a compensation does to one executed key is one run of the protocol: list, undo, mark. */
  lemma UndoIsARun(row: OutboxRow, landed: seq<EffectResult>, outcomes: seq<EffectResult>, n: nat, honours: bool,
                   fate: Fate)
    requires row.status == EffExecuted
    ensures Run(Resting(Some(row), landed, outcomes, n), honours, UndoScript(fate))
            == Resting(Some(UndoneRow(row, fate)), landed, outcomes, n + if fate == Refuses then 0 else 1)
  {
    var c := Resting(Some(row), landed, outcomes, n);
    var xs := UndoScript(fate);
    RunThree(c, honours, xs[0], xs[1], xs[2]);
    assert map[0 := Listed] - {0} == map[] && map[0 := Reversed] - {0} == map[];
  }
}
