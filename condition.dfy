/**
 * `Condition` (src/condition.ts): a slot sequence appended to in place by
 * `and`/`or`, patched by `setOperator`, rendered by `toString`, snapshot by
 * `toJSON` and rebuilt from a snapshot by `restore`.
 */
module Conditions {
  import opened Wrappers
  import opened Expressions
  import opened Slots

  // ---------------------------------------------------------------------------
  // The snapshot form (`ConditionDump`)

  /** One dumped slot `{operator, condition?, expression?}`; a well-formed record has exactly one payload. */
  datatype Record = Record(op: Join, condition: MaybeRecords, expression: Option<Context>)

  /** The `condition` field of a record: absent, or a nested record list. */
  datatype MaybeRecords = NoRecords | Records(records: seq<Record>)

  /** The snapshot of one slot: its join and its payload's own snapshot. */
  function DumpSlot(s: Slot): (r: Record)
    ensures r.op == s.op
    ensures r.expression.Some? <==> s.payload.Leaf?
    ensures r.condition.Records? <==> s.payload.Sub?
    decreases s
  {
    match s.payload
    case Leaf(e) => Record(s.op, NoRecords, Some(e.ToJSON()))
    case Sub(ss) => Record(s.op, Records(Dump(ss)), None)
  }

  /** `toJSON`: the slots in order, each as its snapshot, trailing join included. */
  function Dump(slots: seq<Slot>): (r: seq<Record>)
    ensures |r| == |slots|
    ensures forall i :: 0 <= i < |slots| ==> r[i] == DumpSlot(slots[i])
    decreases slots, 1
  {
    if |slots| == 0 then [] else [DumpSlot(slots[0])] + Dump(slots[1..])
  }

  /** Every nested slot sequence, at any depth, is non-empty. */
  predicate NoEmptySub(slots: seq<Slot>)
    decreases slots, 1
  {
    forall i :: 0 <= i < |slots| ==> NoEmptySubIn(slots[i])
  }

  predicate NoEmptySubIn(s: Slot)
    decreases s
  {
    s.payload.Sub? ==> |s.payload.slots| > 0 && NoEmptySub(s.payload.slots)
  }

  /** Every leaf, at any depth, carries no hooks at all. */
  predicate HookFree(slots: seq<Slot>)
    decreases slots, 1
  {
    forall i :: 0 <= i < |slots| ==> HookFreeIn(slots[i])
  }

  predicate HookFreeIn(s: Slot)
    decreases s
  {
    match s.payload
    case Leaf(e) => NoHooks(e.options)
    case Sub(ss) => HookFree(ss)
  }

  /** Every leaf, at any depth, carries no rendering hook (a validator is allowed). */
  predicate PlainLeaves(slots: seq<Slot>)
    decreases slots, 1
  {
    forall i :: 0 <= i < |slots| ==> PlainLeavesIn(slots[i])
  }

  predicate PlainLeavesIn(s: Slot)
    decreases s
  {
    match s.payload
    case Leaf(e) => NoRenderHooks(e.options)
    case Sub(ss) => PlainLeaves(ss)
  }

  /** The precondition of `restore`: every nested record list is non-empty (slot 0 is read). */
  predicate Restorable(rec: Record)
    decreases rec
  {
    match rec.condition
    case NoRecords => true
    case Records(cs) => |cs| > 0 && AllRestorable(cs)
  }

  predicate AllRestorable(recs: seq<Record>)
    decreases recs, 1
  {
    forall i :: 0 <= i < |recs| ==> Restorable(recs[i])
  }

  /** A record `restore` rejects: neither payload, or a nested list holding such a record. */
  predicate Broken(rec: Record)
    decreases rec
  {
    match rec.condition
    case NoRecords => rec.expression.None?
    case Records(cs) => AnyBroken(cs)
  }

  predicate AnyBroken(recs: seq<Record>)
    decreases recs, 1
  {
    exists i :: 0 <= i < |recs| && Broken(recs[i])
  }

  /**
   * A record as `toJSON` produces it for a condition with no empty nested
   * condition: exactly one payload, nested lists non-empty and well-formed.
   */
  predicate WellFormed(rec: Record)
    decreases rec
  {
    match rec.condition
    case NoRecords => rec.expression.Some?
    case Records(cs) => rec.expression.None? && |cs| > 0 && AllWellFormed(cs)
  }

  predicate AllWellFormed(recs: seq<Record>)
    decreases recs, 1
  {
    forall i :: 0 <= i < |recs| ==> WellFormed(recs[i])
  }

  /** A record as `toJSON` produces it for any condition: exactly one payload at every depth. */
  predicate SinglePayload(rec: Record)
    decreases rec
  {
    match rec.condition
    case NoRecords => rec.expression.Some?
    case Records(cs) => rec.expression.None? && AllSinglePayload(cs)
  }

  predicate AllSinglePayload(recs: seq<Record>)
    decreases recs, 1
  {
    forall i :: 0 <= i < |recs| ==> SinglePayload(recs[i])
  }

  // ---------------------------------------------------------------------------
  // `restore` as written: replay `and`/`or` with each record's OWN join

  /** Slot 0 of a restored nested list gets its recorded join back (`setOperator(0, backup)`). */
  function Patch0(slots: seq<Slot>, j: Join): seq<Slot>
    requires |slots| > 0
  {
    slots[0 := slots[0].(op := j)]
  }

  /** The payload `restore` rebuilds from one record: the condition wins over the expression. */
  function RestorePayload(rec: Record): (r: Result<Payload>)
    requires Restorable(rec)
    ensures r.Err? ==> r.error == Malformed
    decreases rec
  {
    match rec.condition
    case Records(cs) =>
      (match Replay(cs)
       case Err(e) => Err(e)
       case Ok(ss) => Ok(Sub(Patch0(ss, cs[0].op))))
    case NoRecords =>
      (match rec.expression
       case None => Err(Malformed)
       case Some(ctx) => Ok(Leaf(Expression(ctx.key, ctx.operator, ctx.value, NoOptions))))
  }

  /** The `for` loop of `restore`: record i is appended with `cond[record.operator](…)`. */
  function Replay(recs: seq<Record>): (r: Result<seq<Slot>>)
    requires AllRestorable(recs)
    ensures r.Ok? ==> |r.value| == |recs|
    ensures r.Err? ==> r.error == Malformed
    decreases recs, 1
  {
    if |recs| == 0 then Ok([])
    else
      var n := |recs|;
      assert AllRestorable(recs[..n - 1]) by {
        var prefix := recs[..n - 1];
        forall i | 0 <= i < |prefix| ensures Restorable(prefix[i]) {
          assert prefix[i] == recs[i];
        }
      }
      match Replay(recs[..n - 1])
      case Err(e) => Err(e)
      case Ok(acc) =>
        match RestorePayload(recs[n - 1])
        case Err(e) => Err(e)
        case Ok(p) => Ok(Append(acc, p, recs[n - 1].op))
  }

  /** The join the as-written replay leaves on slot i: the next record's (the recorded one on a patched slot 0). */
  function ShiftedJoin(recs: seq<Record>, i: nat, patched: bool): Join
    requires i < |recs|
  {
    if patched && i == 0 then recs[0].op
    else if i + 1 < |recs| then recs[i + 1].op
    else recs[i].op
  }

  /** `out` is `recs` with every join list shifted one place to the left, nested lists patched at 0. */
  predicate ShiftedCopy(out: seq<Record>, recs: seq<Record>, patched: bool)
    decreases recs, 1
  {
    && |out| == |recs|
    && forall i :: 0 <= i < |recs| ==>
         out[i].op == ShiftedJoin(recs, i, patched) && ShiftedBody(out[i], recs[i])
  }

  predicate ShiftedBody(o: Record, r: Record)
    decreases r
  {
    match r.condition
    case Records(cs) => o.expression.None? && o.condition.Records? && ShiftedCopy(o.condition.records, cs, true)
    case NoRecords => o.condition.NoRecords? && o.expression == r.expression
  }

  /** The joins are equal from index `from` on at this level, and from index 1 on in every nested list. */
  predicate Steady(recs: seq<Record>, from: nat)
    decreases recs, 1
  {
    && (forall i :: from <= i < |recs| - 1 ==> recs[i].op == recs[i + 1].op)
    && (forall i :: 0 <= i < |recs| ==> SteadyBody(recs[i]))
  }

  predicate SteadyBody(r: Record)
    decreases r
  {
    match r.condition
    case NoRecords => true
    case Records(cs) => Steady(cs, 1)
  }

  // ---------------------------------------------------------------------------
  // The intended `restore`: append record i with record i - 1's join, then
  // give the last slot its recorded join back.

  /** The join the intended replay appends record i with. */
  function PreviousJoin(recs: seq<Record>, i: nat): Join
    requires i < |recs|
  {
    if i == 0 then recs[0].op else recs[i - 1].op
  }

  function PreviousJoins(recs: seq<Record>): (r: seq<Join>)
    ensures |r| == |recs|
    ensures forall i :: 0 <= i < |recs| ==> r[i] == PreviousJoin(recs, i)
  {
    seq(|recs|, i requires 0 <= i < |recs| => PreviousJoin(recs, i))
  }

  function IntendedPayload(rec: Record): (r: Result<Payload>)
    ensures r.Err? ==> r.error == Malformed
    decreases rec
  {
    match rec.condition
    case Records(cs) =>
      (match RestoreIntended(cs)
       case Err(e) => Err(e)
       case Ok(ss) => Ok(Sub(ss)))
    case NoRecords =>
      (match rec.expression
       case None => Err(Malformed)
       case Some(ctx) => Ok(Leaf(Expression(ctx.key, ctx.operator, ctx.value, NoOptions))))
  }

  function IntendedPayloads(recs: seq<Record>): (r: Result<seq<Payload>>)
    ensures r.Ok? ==> |r.value| == |recs|
    ensures r.Err? ==> r.error == Malformed
    decreases recs, 1
  {
    if |recs| == 0 then Ok([])
    else
      match IntendedPayload(recs[0])
      case Err(e) => Err(e)
      case Ok(p) =>
        match IntendedPayloads(recs[1..])
        case Err(e) => Err(e)
        case Ok(ps) => Ok([p] + ps)
  }

  /** The corrected replay: `Build` with the previous records' joins, then `setOperator(n - 1, own)`. */
  function RestoreIntended(recs: seq<Record>): (r: Result<seq<Slot>>)
    ensures r.Err? ==> r.error == Malformed
    ensures r.Ok? ==> |r.value| == |recs| && forall i :: 0 <= i < |recs| ==> r.value[i].op == recs[i].op
    decreases recs, 2
  {
    match IntendedPayloads(recs)
    case Err(e) => Err(e)
    case Ok(ps) =>
      if |recs| == 0 then Ok([])
      else
        IntendedJoins(recs, ps);
        Ok(SetLast(Build(ps, PreviousJoins(recs)), recs[|recs| - 1].op))
  }

  /** After the final `setOperator`, slot i holds payload i with record i's own join. */
  lemma IntendedJoins(recs: seq<Record>, ps: seq<Payload>)
    requires |ps| == |recs| > 0
    ensures var s := SetLast(Build(ps, PreviousJoins(recs)), recs[|recs| - 1].op);
            && |s| == |recs|
            && forall i :: 0 <= i < |recs| ==> s[i] == Slot(recs[i].op, ps[i])
  {
    var n, joins := |recs|, PreviousJoins(recs);
    BuildShape(ps, joins);
    var built := Build(ps, joins);
    var s := SetLast(built, recs[n - 1].op);
    forall i | 0 <= i < n ensures s[i] == Slot(recs[i].op, ps[i]) {
      if i < n - 1 {
        assert s[i] == built[i];
        assert built[i].op == joins[i + 1] == PreviousJoin(recs, i + 1);
      }
    }
  }

  // ---------------------------------------------------------------------------
  // The builder

  class Condition {
    /** The hook set handed to every leaf this condition creates. */
    var options: Options
    /** `#content`. */
    var content: seq<Slot>

    constructor (options: Options := NoOptions)
      ensures this.options == options && content == []
    {
      this.options := options;
      content := [];
    }

    /** `#setPreviousAs`. */
    method SetPreviousAs(op: Join)
      modifies this`content
      ensures content == SetLast(old(content), op)
    {
      if |content| > 0 {
        content := content[|content| - 1 := content[|content| - 1].(op := op)];
      }
    }

    /**
     * `#addExpression`: the previous slot's join is overwritten BEFORE the new
     * leaf is validated, so a rejected leaf still leaves that overwrite behind.
     */
    method AddExpression(key: string, operator: string, value: string, join: Join) returns (r: Result<Condition>)
      modifies this`content
      ensures var e := NewExpression(key, operator, value, options);
              if e.Ok? then r == Ok(this) && content == Append(old(content), Leaf(e.value), join)
              else r == Err(ValidationFailed) && content == SetLast(old(content), join)
    {
      SetPreviousAs(join);
      var e := NewExpression(key, operator, value, options);
      if e.Err? {
        return Err(e.error);
      }
      content := content + [Slot(join, Leaf(e.value))];
      return Ok(this);
    }

    /** `#addCondition`: the child takes this condition's hook set; its slots are held as they are now. */
    method AddCondition(child: Condition, join: Join) returns (r: Condition)
      requires child != this
      modifies this`content, child`options
      ensures r == this && child.options == options
      ensures content == Append(old(content), Sub(old(child.content)), join)
      ensures child.content == old(child.content)
    {
      SetPreviousAs(join);
      child.options := options;
      content := content + [Slot(join, Sub(child.content))];
      return this;
    }

    method And(key: string, operator: string, value: string) returns (r: Result<Condition>)
      modifies this`content
      ensures var e := NewExpression(key, operator, value, options);
              if e.Ok? then r == Ok(this) && content == Append(old(content), Leaf(e.value), Join.And)
              else r == Err(ValidationFailed) && content == SetLast(old(content), Join.And)
    {
      r := AddExpression(key, operator, value, Join.And);
    }

    method AndCondition(child: Condition) returns (r: Condition)
      requires child != this
      modifies this`content, child`options
      ensures r == this && child.options == options
      ensures content == Append(old(content), Sub(old(child.content)), Join.And)
      ensures child.content == old(child.content)
    {
      r := AddCondition(child, Join.And);
    }

    method Or(key: string, operator: string, value: string) returns (r: Result<Condition>)
      modifies this`content
      ensures var e := NewExpression(key, operator, value, options);
              if e.Ok? then r == Ok(this) && content == Append(old(content), Leaf(e.value), Join.Or)
              else r == Err(ValidationFailed) && content == SetLast(old(content), Join.Or)
    {
      r := AddExpression(key, operator, value, Join.Or);
    }

    method OrCondition(child: Condition) returns (r: Condition)
      requires child != this
      modifies this`content, child`options
      ensures r == this && child.options == options
      ensures content == Append(old(content), Sub(old(child.content)), Join.Or)
      ensures child.content == old(child.content)
    {
      r := AddCondition(child, Join.Or);
    }

    /** `setOperator`: patch the join of an existing slot, or throw `Index 'i' not found`. */
    method SetOperator(index: int, op: Join) returns (r: Result<Condition>)
      modifies this`content
      ensures 0 <= index < |old(content)| ==>
                r == Ok(this) && content == old(content)[index := old(content)[index].(op := op)]
      ensures !(0 <= index < |old(content)|) ==> r == Err(IndexNotFound(index)) && content == old(content)
    {
      if 0 <= index < |content| {
        content := content[index := content[index].(op := op)];
        return Ok(this);
      }
      return Err(IndexNotFound(index));
    }

    /** `toJSON` (and the structure `dump` encodes): one record per slot, well-formed unless a nested condition is empty. */
    function ToJSON(): (r: seq<Record>)
      reads this`content
      ensures |r| == |content| && forall i :: 0 <= i < |content| ==> r[i] == DumpSlot(content[i])
      ensures AllWellFormed(r) <==> NoEmptySub(content)
    {
      DumpWellFormed(content);
      Dump(content)
    }

    /** `toString`: "" when empty, else each slot's text followed by its join word, except the last. */
    function ToString(): (r: string)
      reads this`content
      ensures |content| == 0 ==> r == ""
      ensures |content| == 1 ==> r == Text(content[0])
      ensures |content| > 1 ==> r == Text(content[0]) + Sep(content[0].op) + Render(content[1..])
    {
      if |content| == 0 then "" else RenderUnfold(content); Render(content)
    }

    /**
     * `restore`: a fresh condition with no hooks replays every record with
     * `and`/`or` as its own join names; a nested list is restored first and
     * its slot 0 gets its recorded join back.
     */
    static method Restore(dump: seq<Record>) returns (r: Result<Condition>)
      requires AllRestorable(dump)
      ensures r.Ok? <==> Replay(dump).Ok?
      ensures r.Err? ==> r.error == Malformed
      ensures r.Ok? ==> fresh(r.value) && r.value.content == Replay(dump).value && r.value.options == NoOptions
      decreases Records(dump) // ranked as a `condition` field, so that a nested list counts as smaller
    {
      var cond := new Condition();
      for i := 0 to |dump|
        invariant fresh(cond) && cond.options == NoOptions
        invariant AllRestorable(dump[..i])
        invariant Replay(dump[..i]) == Ok(cond.content)
      {
        var rec := dump[i];
        assert Restorable(rec);
        assert dump[..i + 1][..i] == dump[..i] && dump[..i + 1][i] == rec;
        assert AllRestorable(dump[..i + 1]);
        if rec.condition.NoRecords? && rec.expression.None? {
          ReplayFailsOnPrefix(dump, i + 1);
          return Err(Malformed);
        }
        var join := rec.op;
        match rec.condition {
          case Records(cs) =>
            var backup := cs[0].op;
            var restored := Restore(cs);
            if restored.Err? {
              ReplayFailsOnPrefix(dump, i + 1);
              return Err(restored.error);
            }
            var child := restored.value;
            var _ := child.SetOperator(0, backup);
            if join == Join.And {
              var _ := cond.AndCondition(child);
            } else {
              var _ := cond.OrCondition(child);
            }
          case NoRecords =>
            var ctx := rec.expression.value;
            var added;
            if join == Join.And {
              added := cond.And(ctx.key, ctx.operator, ctx.value);
            } else {
              added := cond.Or(ctx.key, ctx.operator, ctx.value);
            }
        }
      }
      assert dump[..|dump|] == dump;
      return Ok(cond);
    }
  }

  // ---------------------------------------------------------------------------
  // Properties of `restore` as written

  /** Once a prefix of the records fails to replay, the whole list fails. */
  lemma {:induction false} ReplayFailsOnPrefix(recs: seq<Record>, k: nat)
    requires AllRestorable(recs) && k <= |recs|
    requires AllRestorable(recs[..k]) && Replay(recs[..k]).Err?
    ensures Replay(recs).Err?
    decreases |recs| - k
  {
    if k < |recs| {
      var next := recs[..k + 1];
      assert next[..k] == recs[..k];
      assert AllRestorable(next) by {
        forall i | 0 <= i < k + 1 ensures Restorable(next[i]) {
          assert next[i] == recs[i];
        }
      }
      ReplayFailsOnPrefix(recs, k + 1);
    } else {
      assert recs[..k] == recs;
    }
  }

  /** A well-formed record list satisfies the precondition of `restore`. */
  lemma {:induction false} WellFormedIsRestorable(recs: seq<Record>)
    requires AllWellFormed(recs)
    ensures AllRestorable(recs)
    decreases recs, 1
  {
    forall i | 0 <= i < |recs| ensures Restorable(recs[i]) {
      WellFormedRecordIsRestorable(recs[i]);
    }
  }

  lemma {:induction false} WellFormedRecordIsRestorable(rec: Record)
    requires WellFormed(rec)
    ensures Restorable(rec)
    decreases rec
  {
    match rec.condition
    case NoRecords =>
    case Records(cs) => WellFormedIsRestorable(cs);
  }

  /**
   * Replaying record i with its own join leaves on slot i the join of record
   * i + 1 (the last slot keeps its own), and the payload rebuilt from record i.
   */
  lemma {:induction false} ReplayShape(recs: seq<Record>)
    requires AllRestorable(recs)
    ensures Replay(recs).Ok? <==> forall i :: 0 <= i < |recs| ==> RestorePayload(recs[i]).Ok?
    ensures Replay(recs).Ok? ==>
              forall i :: 0 <= i < |recs| ==>
                Replay(recs).value[i] == Slot(ShiftedJoin(recs, i, false), RestorePayload(recs[i]).value)
  {
    var n := |recs|;
    if n > 0 {
      var prefix := recs[..n - 1];
      PrefixRestorable(recs, n - 1);
      ReplayShape(prefix);
      assert Replay(recs).Ok? <==> Replay(prefix).Ok? && RestorePayload(recs[n - 1]).Ok?;
      if Replay(recs).Ok? {
        ReplayShapeStep(recs, Replay(prefix).value, RestorePayload(recs[n - 1]).value);
      }
    }
  }

  lemma PrefixRestorable(recs: seq<Record>, k: nat)
    requires AllRestorable(recs) && k <= |recs|
    ensures AllRestorable(recs[..k])
    ensures forall i :: 0 <= i < k ==> recs[..k][i] == recs[i]
  {
  }

  /** The step of `ReplayShape`: appending the last record keeps every slot at its shifted join. */
  lemma ReplayShapeStep(recs: seq<Record>, acc: seq<Slot>, p: Payload)
    requires |recs| > 0 && AllRestorable(recs) && |acc| == |recs| - 1
    requires forall i :: 0 <= i < |acc| ==> RestorePayload(recs[i]).Ok?
    requires forall i :: 0 <= i < |acc| ==>
               acc[i] == Slot(ShiftedJoin(recs[..|recs| - 1], i, false), RestorePayload(recs[i]).value)
    requires RestorePayload(recs[|recs| - 1]) == Ok(p)
    ensures var s := Append(acc, p, recs[|recs| - 1].op);
            forall i :: 0 <= i < |recs| ==> s[i] == Slot(ShiftedJoin(recs, i, false), RestorePayload(recs[i]).value)
  {
    var n, prefix := |recs|, recs[..|recs| - 1];
    var s := Append(acc, p, recs[n - 1].op);
    forall i | 0 <= i < n
      ensures s[i] == Slot(ShiftedJoin(recs, i, false), RestorePayload(recs[i]).value)
    {
      if i < n - 2 {
        assert s[i] == acc[i];
        assert ShiftedJoin(prefix, i, false) == prefix[i + 1].op == recs[i + 1].op;
      } else if i == n - 2 {
        assert s[i] == Slot(recs[n - 1].op, acc[i].payload);
      }
    }
  }

  /** `restore` throws exactly when some record, at any depth, has neither payload. */
  lemma {:induction false} ReplayFails(recs: seq<Record>)
    requires AllRestorable(recs)
    ensures Replay(recs).Err? <==> AnyBroken(recs)
    decreases recs, 1
  {
    ReplayShape(recs);
    forall i | 0 <= i < |recs| ensures RestorePayload(recs[i]).Err? <==> Broken(recs[i]) {
      RestorePayloadFails(recs[i]);
    }
  }

  lemma {:induction false} RestorePayloadFails(rec: Record)
    requires Restorable(rec)
    ensures RestorePayload(rec).Err? <==> Broken(rec)
    decreases rec
  {
    match rec.condition
    case NoRecords =>
    case Records(cs) => ReplayFails(cs);
  }

  /** Every leaf `restore` builds carries the empty hook set, so no validator runs. */
  lemma {:induction false} ReplayHookFree(recs: seq<Record>)
    requires AllRestorable(recs) && Replay(recs).Ok?
    ensures HookFree(Replay(recs).value)
    decreases recs, 1
  {
    ReplayShape(recs);
    forall i | 0 <= i < |recs| ensures HookFreeIn(Replay(recs).value[i]) {
      RestorePayloadHookFree(recs[i], ShiftedJoin(recs, i, false));
    }
  }

  lemma {:induction false} RestorePayloadHookFree(rec: Record, j: Join)
    requires Restorable(rec) && RestorePayload(rec).Ok?
    ensures HookFreeIn(Slot(j, RestorePayload(rec).value))
    decreases rec
  {
    match rec.condition
    case NoRecords =>
    case Records(cs) =>
      ReplayHookFree(cs);
      var ss := Replay(cs).value;
      var patched := Patch0(ss, cs[0].op);
      forall i | 0 <= i < |patched| ensures HookFreeIn(patched[i]) {
        assert HookFreeIn(ss[i]);
        assert patched[i].payload == ss[i].payload;
      }
  }

  /** Changing a slot's join changes only the join of its snapshot. */
  lemma DumpSlotJoin(s: Slot, j: Join)
    ensures DumpSlot(s.(op := j)) == DumpSlot(s).(op := j)
  {
  }

  /**
   * The snapshot of what `restore` rebuilds is the input with every join list
   * shifted one place to the left; nested lists keep their join 0.
   */
  lemma {:induction false} ReplayShiftsJoins(recs: seq<Record>)
    requires AllWellFormed(recs)
    ensures AllRestorable(recs) && Replay(recs).Ok?
    ensures ShiftedCopy(Dump(Replay(recs).value), recs, false)
    decreases recs, 1
  {
    WellFormedIsRestorable(recs);
    forall i | 0 <= i < |recs|
      ensures RestorePayload(recs[i]).Ok?
      ensures ShiftedBody(DumpSlot(Slot(ShiftedJoin(recs, i, false), RestorePayload(recs[i]).value)), recs[i])
    {
      RestoredBody(recs[i], ShiftedJoin(recs, i, false));
    }
    ReplayShape(recs);
  }

  lemma {:induction false} RestoredBody(rec: Record, j: Join)
    requires WellFormed(rec)
    ensures Restorable(rec) && RestorePayload(rec).Ok?
    ensures ShiftedBody(DumpSlot(Slot(j, RestorePayload(rec).value)), rec)
    decreases rec
  {
    WellFormedRecordIsRestorable(rec);
    match rec.condition
    case NoRecords =>
    case Records(cs) =>
      ReplayShiftsJoins(cs);
      var ss := Replay(cs).value;
      var patched := Patch0(ss, cs[0].op);
      var out, was := Dump(patched), Dump(ss);
      assert out == was[0 := was[0].(op := cs[0].op)] by {
        DumpSlotJoin(ss[0], cs[0].op);
      }
      assert ShiftedCopy(out, cs, true);
  }

  /** A shifted copy equals the original exactly when no shift is visible: the steady join condition. */
  lemma {:induction false} ShiftedCopyExact(out: seq<Record>, recs: seq<Record>, patched: bool)
    requires AllWellFormed(recs) && ShiftedCopy(out, recs, patched)
    ensures out == recs <==> Steady(recs, if patched then 1 else 0)
    decreases recs, 1
  {
    var from := if patched then 1 else 0;
    forall i | 0 <= i < |recs| ensures out[i] == recs[i].(op := out[i].op) <==> SteadyBody(recs[i]) {
      ShiftedBodyExact(out[i], recs[i]);
    }
    if out == recs {
      forall i | from <= i < |recs| - 1 ensures recs[i].op == recs[i + 1].op {
        assert out[i].op == ShiftedJoin(recs, i, patched);
      }
    }
    if Steady(recs, from) {
      forall i | 0 <= i < |recs| ensures out[i] == recs[i] {
        assert out[i].op == recs[i].op;
      }
    }
  }

  lemma {:induction false} ShiftedBodyExact(o: Record, r: Record)
    requires WellFormed(r) && ShiftedBody(o, r)
    ensures o == r.(op := o.op) <==> SteadyBody(r)
    decreases r
  {
    match r.condition
    case NoRecords =>
    case Records(cs) => ShiftedCopyExact(o.condition.records, cs, true);
  }

  /**
   * Round trip of `restore`: for a well-formed dump, the restored condition
   * dumps back to the same records exactly when the joins are steady (all
   * equal at the top level, equal from index 1 on in every nested list).
   */
  lemma RestoreRoundTrip(recs: seq<Record>)
    requires AllWellFormed(recs)
    ensures AllRestorable(recs) && Replay(recs).Ok?
    ensures Dump(Replay(recs).value) == recs <==> Steady(recs, 0)
  {
    ReplayShiftsJoins(recs);
    ShiftedCopyExact(Dump(Replay(recs).value), recs, false);
  }

  /** A condition's snapshot is well-formed exactly when it holds no empty nested condition. */
  lemma {:induction false} DumpWellFormed(slots: seq<Slot>)
    ensures AllWellFormed(Dump(slots)) <==> NoEmptySub(slots)
    decreases slots, 1
  {
    forall i | 0 <= i < |slots| ensures WellFormed(DumpSlot(slots[i])) <==> NoEmptySubIn(slots[i]) {
      DumpSlotWellFormed(slots[i]);
    }
  }

  lemma {:induction false} DumpSlotWellFormed(s: Slot)
    ensures WellFormed(DumpSlot(s)) <==> NoEmptySubIn(s)
    decreases s
  {
    match s.payload
    case Leaf(_) =>
    case Sub(ss) => DumpWellFormed(ss);
  }

  /**
   * `restore(c.toJSON()).toJSON() == c.toJSON()` holds for a condition without
   * empty nested conditions exactly when its dumped joins are steady.
   */
  lemma ConditionRoundTrip(slots: seq<Slot>)
    requires NoEmptySub(slots)
    ensures AllRestorable(Dump(slots)) && Replay(Dump(slots)).Ok?
    ensures Dump(Replay(Dump(slots)).value) == Dump(slots) <==> Steady(Dump(slots), 0)
  {
    DumpWellFormed(slots);
    RestoreRoundTrip(Dump(slots));
  }

  /** `and(a).or(b).and(c)` dumps joins [or, and, and] and restores as [and, and, and]. */
  lemma RestoreCounterexample(a: Expression, b: Expression, c: Expression)
    ensures var built := Append(Append(Append([], Leaf(a), Join.And), Leaf(b), Join.Or), Leaf(c), Join.And);
            var recs := Dump(built);
            && [recs[0].op, recs[1].op, recs[2].op] == [Join.Or, Join.And, Join.And]
            && AllRestorable(recs) && Replay(recs).Ok?
            && var back := Replay(recs).value;
               [back[0].op, back[1].op, back[2].op] == [Join.And, Join.And, Join.And]
               && Dump(back) != recs
  {
    var built := Append(Append(Append([], Leaf(a), Join.And), Leaf(b), Join.Or), Leaf(c), Join.And);
    var recs := Dump(built);
    assert AllWellFormed(recs) by { DumpWellFormed(built); }
    WellFormedIsRestorable(recs);
    ReplayShiftsJoins(recs);
    ReplayShape(recs);
    assert Dump(Replay(recs).value)[0].op != recs[0].op;
  }

  /** What `and(a eq b).or(c neq d).and(e lt f)` holds: the text `a=b or c!=d and e<f`. */
  function ShiftExample(): seq<Slot> {
    [Slot(Join.Or, Plain("a", "eq", "b")), Slot(Join.And, Plain("c", "neq", "d")), Slot(Join.And, Plain("e", "lt", "f"))]
  }

  lemma ShiftExampleBuilt()
    ensures Append(Append(Append([], Plain("a", "eq", "b"), Join.And), Plain("c", "neq", "d"), Join.Or),
                   Plain("e", "lt", "f"), Join.And)
            == ShiftExample()
  {
  }

  /** Restoring the example's dump gives its first slot the join `and`. */
  lemma ShiftExampleReplayed()
    ensures AllRestorable(Dump(ShiftExample())) && Replay(Dump(ShiftExample())).Ok?
    ensures var back := Replay(Dump(ShiftExample())).value;
            |back| == 3 && back[0] == Slot(Join.And, Plain("a", "eq", "b"))
  {
    var recs := Dump(ShiftExample());
    assert AllWellFormed(recs) by { DumpWellFormed(ShiftExample()); }
    WellFormedIsRestorable(recs);
    ReplayShape(recs);
  }

  /** The shift is visible in the text: `a=b or c!=d and e<f` comes back as `a=b and c!=d and e<f`. */
  lemma RestoreTextCounterexample()
    ensures AllRestorable(Dump(ShiftExample())) && Replay(Dump(ShiftExample())).Ok?
    ensures var back := Replay(Dump(ShiftExample())).value;
            && Render(ShiftExample()) == "a=b" + " or " + Render(ShiftExample()[1..])
            && Render(back) == "a=b" + " and " + Render(back[1..])
            && Render(back) != Render(ShiftExample())
  {
    var built := ShiftExample();
    ShiftExampleReplayed();
    var back := Replay(Dump(built)).value;
    LeafTextA(Join.Or);
    LeafTextA(Join.And);
    OrThenAndDiffer(built, back);
  }

  /** Two renderings that start with `a=b` differ when one joins it with `or` and the other with `and`. */
  lemma OrThenAndDiffer(u: seq<Slot>, v: seq<Slot>)
    requires |u| > 1 && |v| > 1 && Text(u[0]) == "a=b" && Text(v[0]) == "a=b"
    requires u[0].op == Join.Or && v[0].op == Join.And
    ensures Render(u) == "a=b" + " or " + Render(u[1..])
    ensures Render(v) == "a=b" + " and " + Render(v[1..])
    ensures Render(u) != Render(v)
  {
    RenderUnfold(u);
    RenderUnfold(v);
    SepWords();
    StringsDifferAt("a=b" + " or " + Render(u[1..]), "a=b" + " and " + Render(v[1..]), 4);
  }

  lemma StringsDifferAt(u: string, v: string, k: nat)
    requires k < |u| && k < |v| && u[k] != v[k]
    ensures u != v
  {
  }

  // ---------------------------------------------------------------------------
  // Properties of the intended `restore`

  lemma {:induction false} IntendedPayloadsAt(recs: seq<Record>)
    requires AllSinglePayload(recs)
    ensures IntendedPayloads(recs).Ok?
    ensures forall i :: 0 <= i < |recs| ==>
              DumpSlot(Slot(recs[i].op, IntendedPayloads(recs).value[i])) == recs[i]
    decreases recs, 1
  {
    if |recs| > 0 {
      IntendedPayloadBody(recs[0]);
      assert AllSinglePayload(recs[1..]) by {
        forall i | 0 <= i < |recs| - 1 ensures SinglePayload(recs[1..][i]) {
          assert recs[1..][i] == recs[i + 1];
        }
      }
      IntendedPayloadsAt(recs[1..]);
      var ps := IntendedPayloads(recs).value;
      forall i | 0 <= i < |recs| ensures DumpSlot(Slot(recs[i].op, ps[i])) == recs[i] {
        if i > 0 {
          assert ps[i] == IntendedPayloads(recs[1..]).value[i - 1];
          assert recs[1..][i - 1] == recs[i];
        }
      }
    }
  }

  lemma {:induction false} IntendedPayloadBody(rec: Record)
    requires SinglePayload(rec)
    ensures IntendedPayload(rec).Ok?
    ensures DumpSlot(Slot(rec.op, IntendedPayload(rec).value)) == rec
    decreases rec
  {
    match rec.condition
    case NoRecords =>
    case Records(cs) => RestoreIntendedRoundTrip(cs);
  }

  /**
   * The intended `restore` is an exact inverse of `toJSON` on every record list
   * with one payload per record, empty nested lists included.
   */
  lemma {:induction false} RestoreIntendedRoundTrip(recs: seq<Record>)
    requires AllSinglePayload(recs)
    ensures RestoreIntended(recs).Ok?
    ensures Dump(RestoreIntended(recs).value) == recs
    decreases recs, 2
  {
    IntendedPayloadsAt(recs);
    var n := |recs|;
    if n > 0 {
      var ps := IntendedPayloads(recs).value;
      IntendedJoins(recs, ps);
      var s := RestoreIntended(recs).value;
      assert s == SetLast(Build(ps, PreviousJoins(recs)), recs[n - 1].op);
      assert forall i :: 0 <= i < n ==> DumpSlot(s[i]) == recs[i];
    }
  }

  /** Every condition's snapshot has one payload per record, at every depth. */
  lemma {:induction false} DumpSinglePayload(slots: seq<Slot>)
    ensures AllSinglePayload(Dump(slots))
    decreases slots, 1
  {
    forall i | 0 <= i < |slots| ensures SinglePayload(DumpSlot(slots[i])) {
      DumpSlotSinglePayload(slots[i]);
    }
  }

  lemma {:induction false} DumpSlotSinglePayload(s: Slot)
    ensures SinglePayload(DumpSlot(s))
    decreases s
  {
    match s.payload
    case Leaf(_) =>
    case Sub(ss) => DumpSinglePayload(ss);
  }

  /** With the intended `restore`, `restore(c.toJSON()).toJSON() == c.toJSON()` for every condition. */
  lemma IntendedRoundTripOnDumps(slots: seq<Slot>)
    ensures RestoreIntended(Dump(slots)).Ok?
    ensures Dump(RestoreIntended(Dump(slots)).value) == Dump(slots)
  {
    DumpSinglePayload(slots);
    RestoreIntendedRoundTrip(Dump(slots));
  }

  /**
   * `new Condition().and(new Condition())` dumps one record with an empty
   * nested list: as written, `restore` cannot replay it (it reads the first
   * nested record), while the intended replay gives the same snapshot back.
   */
  lemma EmptyNestedCounterexample()
    ensures var recs := Dump(Append([], Sub([]), Join.And));
            && recs == [Record(Join.And, Records([]), None)]
            && !AllRestorable(recs)
            && RestoreIntended(recs).Ok? && Dump(RestoreIntended(recs).value) == recs
  {
    var recs := Dump(Append([], Sub([]), Join.And));
    assert !Restorable(recs[0]);
    IntendedRoundTripOnDumps(Append([], Sub([]), Join.And));
  }

  lemma {:induction false} IntendedPayloadsHookFree(recs: seq<Record>, j: Join)
    requires IntendedPayloads(recs).Ok?
    ensures forall i :: 0 <= i < |recs| ==> HookFreeIn(Slot(j, IntendedPayloads(recs).value[i]))
    decreases recs, 1
  {
    if |recs| > 0 {
      IntendedPayloadHookFree(recs[0], j);
      IntendedPayloadsHookFree(recs[1..], j);
      var ps := IntendedPayloads(recs).value;
      assert ps[1..] == IntendedPayloads(recs[1..]).value;
    }
  }

  lemma {:induction false} IntendedPayloadHookFree(rec: Record, j: Join)
    requires IntendedPayload(rec).Ok?
    ensures HookFreeIn(Slot(j, IntendedPayload(rec).value))
    decreases rec
  {
    match rec.condition
    case NoRecords =>
    case Records(cs) => RestoreIntendedHookFree(cs);
  }

  /** Every leaf the intended `restore` builds carries the empty hook set. */
  lemma {:induction false} RestoreIntendedHookFree(recs: seq<Record>)
    requires RestoreIntended(recs).Ok?
    ensures HookFree(RestoreIntended(recs).value)
    decreases recs, 2
  {
    var ps, joins := IntendedPayloads(recs).value, PreviousJoins(recs);
    IntendedPayloadsHookFree(recs, Join.And);
    BuildShape(ps, joins);
    var s := RestoreIntended(recs).value;
    forall i | 0 <= i < |s| ensures HookFreeIn(s[i]) {
      assert s[i].payload == ps[i];
      assert HookFreeIn(Slot(Join.And, ps[i]));
    }
  }

  lemma {:induction false} HookFreeIsPlain(slots: seq<Slot>)
    requires HookFree(slots)
    ensures PlainLeaves(slots)
    decreases slots, 1
  {
    forall i | 0 <= i < |slots| ensures PlainLeavesIn(slots[i]) {
      HookFreeSlotIsPlain(slots[i]);
    }
  }

  lemma {:induction false} HookFreeSlotIsPlain(s: Slot)
    requires HookFreeIn(s)
    ensures PlainLeavesIn(s)
    decreases s
  {
    match s.payload
    case Leaf(_) =>
    case Sub(ss) => HookFreeIsPlain(ss);
  }

  /** Without rendering hooks, the text of a condition is determined by its snapshot. */
  lemma {:induction false} RenderByDump(a: seq<Slot>, b: seq<Slot>)
    requires Dump(a) == Dump(b) && PlainLeaves(a) && PlainLeaves(b)
    ensures Render(a) == Render(b)
    decreases a, 1
  {
    if |a| > 0 {
      RenderUnfold(a);
      RenderUnfold(b);
      assert DumpSlot(a[0]) == DumpSlot(b[0]);
      TextByDump(a[0], b[0]);
      if |a| > 1 {
        assert Dump(a[1..]) == Dump(a)[1..] == Dump(b)[1..] == Dump(b[1..]);
        RenderByDump(a[1..], b[1..]);
      }
    }
  }

  lemma {:induction false} TextByDump(s: Slot, t: Slot)
    requires DumpSlot(s) == DumpSlot(t) && PlainLeavesIn(s) && PlainLeavesIn(t)
    ensures Text(s) == Text(t)
    decreases s
  {
    match s.payload
    case Leaf(e) =>
      ShowDefaults(e, NoOptions);
      ShowDefaults(t.payload.expr, NoOptions);
    case Sub(ss) =>
      RenderByDump(ss, t.payload.slots);
  }

  /**
   * The intended `restore` reproduces the text too: a condition without
   * rendering hooks renders the same after a dump and restore.
   */
  lemma RestoreIntendedKeepsText(slots: seq<Slot>)
    requires PlainLeaves(slots)
    ensures RestoreIntended(Dump(slots)).Ok?
    ensures Render(RestoreIntended(Dump(slots)).value) == Render(slots)
  {
    IntendedRoundTripOnDumps(slots);
    var back := RestoreIntended(Dump(slots)).value;
    RestoreIntendedHookFree(Dump(slots));
    HookFreeIsPlain(back);
    RenderByDump(back, slots);
  }

  /** As written, `restore` reproduces the text of a hook-free condition whose joins are steady. */
  lemma RestoreKeepsTextWhenSteady(slots: seq<Slot>)
    requires NoEmptySub(slots) && PlainLeaves(slots) && Steady(Dump(slots), 0)
    ensures AllRestorable(Dump(slots)) && Replay(Dump(slots)).Ok?
    ensures Render(Replay(Dump(slots)).value) == Render(slots)
  {
    ConditionRoundTrip(slots);
    var back := Replay(Dump(slots)).value;
    ReplayHookFree(Dump(slots));
    HookFreeIsPlain(back);
    RenderByDump(back, slots);
  }

  /** A leaf with the empty hook set. */
  function Plain(key: string, operator: string, value: string): Payload {
    Leaf(Expression(key, operator, value, NoOptions))
  }

  /** What `and(i match j).and(k nmatch l)` holds. */
  function ChainInner(): seq<Slot> {
    [Slot(Join.And, Plain("i", "match", "j")), Slot(Join.And, Plain("k", "nmatch", "l"))]
  }

  /** What `and(e lt f).and(g eq h).or(ChainInner)` holds. */
  function ChainMiddle(): seq<Slot> {
    [Slot(Join.And, Plain("e", "lt", "f")), Slot(Join.Or, Plain("g", "eq", "h")), Slot(Join.Or, Sub(ChainInner()))]
  }

  /** What `and(a eq b).or(c neq d).or(ChainMiddle)` holds. */
  function ChainTop(): seq<Slot> {
    [Slot(Join.Or, Plain("a", "eq", "b")), Slot(Join.Or, Plain("c", "neq", "d")), Slot(Join.Or, Sub(ChainMiddle()))]
  }

  /** The three chains are what the `and`/`or` calls build, the retroactive joins included. */
  lemma ChainBuilt()
    ensures Append(Append([], Plain("i", "match", "j"), Join.And), Plain("k", "nmatch", "l"), Join.And)
            == ChainInner()
    ensures Append(Append(Append([], Plain("e", "lt", "f"), Join.And), Plain("g", "eq", "h"), Join.And),
                   Sub(ChainInner()), Join.Or)
            == ChainMiddle()
    ensures Append(Append(Append([], Plain("a", "eq", "b"), Join.And), Plain("c", "neq", "d"), Join.Or),
                   Sub(ChainMiddle()), Join.Or)
            == ChainTop()
  {
  }

  lemma LeafTexts(j: Join)
    ensures Text(Slot(j, Plain("a", "eq", "b"))) == "a=b"
    ensures Text(Slot(j, Plain("c", "neq", "d"))) == "c!=d"
    ensures Text(Slot(j, Plain("e", "lt", "f"))) == "e<f"
    ensures Text(Slot(j, Plain("g", "eq", "h"))) == "g=h"
    ensures Text(Slot(j, Plain("i", "match", "j"))) == "i~*j"
    ensures Text(Slot(j, Plain("k", "nmatch", "l"))) == "k!~*l"
  {
    LeafTextA(j);
    LeafTextC(j);
    LeafTextE(j);
    LeafTextG(j);
    LeafTextI(j);
    LeafTextK(j);
  }

  lemma LeafTextA(j: Join)
    ensures Text(Slot(j, Plain("a", "eq", "b"))) == "a=b"
  {
  }

  lemma LeafTextC(j: Join)
    ensures Text(Slot(j, Plain("c", "neq", "d"))) == "c!=d"
  {
  }

  lemma LeafTextE(j: Join)
    ensures Text(Slot(j, Plain("e", "lt", "f"))) == "e<f"
  {
  }

  lemma LeafTextG(j: Join)
    ensures Text(Slot(j, Plain("g", "eq", "h"))) == "g=h"
  {
  }

  lemma LeafTextI(j: Join)
    ensures Text(Slot(j, Plain("i", "match", "j"))) == "i~*j"
  {
  }

  lemma LeafTextK(j: Join)
    ensures Text(Slot(j, Plain("k", "nmatch", "l"))) == "k!~*l"
  {
  }

  lemma SepWords()
    ensures Sep(Join.And) == " and " && Sep(Join.Or) == " or "
  {
    assert " " + "and" == " and";
    assert " " + "or" == " or";
  }

  lemma ChainInnerText()
    ensures Render(ChainInner()) == "i~*j and k!~*l"
  {
    var c := ChainInner();
    RenderTwo(c);
    LeafTextI(Join.And);
    LeafTextK(Join.And);
    SepWords();
    assert "i~*j" + " and " == "i~*j and ";
    assert "i~*j and " + "k!~*l" == "i~*j and k!~*l";
  }

  /** The middle level, the inner level parenthesised in it. */
  lemma ChainMiddleText()
    ensures Render(ChainMiddle()) == "e<f" + " and " + "g=h" + " or " + "(" + Render(ChainInner()) + ")"
  {
    var c, inner := ChainMiddle(), Render(ChainInner());
    RenderThree(c);
    LeafTextE(Join.And);
    LeafTextG(Join.Or);
    SepWords();
    var front := "e<f" + " and " + "g=h" + " or ";
    ConcatAssoc(front, "(" + inner, ")");
    ConcatAssoc(front, "(", inner);
  }

  /** The text of the three-level chain built by `and`/`or` calls. */
  lemma ChainText()
    ensures Render(ChainTop()) == "a=b" + " or " + "c!=d" + " or " + "(" + Render(ChainMiddle()) + ")"
  {
    var c, middle := ChainTop(), Render(ChainMiddle());
    RenderThree(c);
    LeafTextA(Join.Or);
    LeafTextC(Join.Or);
    SepWords();
    var front := "a=b" + " or " + "c!=d" + " or ";
    ConcatAssoc(front, "(" + middle, ")");
    ConcatAssoc(front, "(", middle);
  }

  lemma ChainShape()
    ensures NoEmptySub(ChainTop()) && PlainLeaves(ChainTop())
  {
    var inner, middle, top := ChainInner(), ChainMiddle(), ChainTop();
    assert NoEmptySub(inner) && PlainLeaves(inner);
    assert NoEmptySubIn(middle[2]) && PlainLeavesIn(middle[2]);
    assert NoEmptySub(middle) && PlainLeaves(middle);
    assert NoEmptySubIn(top[2]) && PlainLeavesIn(top[2]);
  }

  /** The dumped joins of the chain: [or, or, or], [and, or, or] and [and, and]. */
  lemma ChainSteady()
    ensures Steady(Dump(ChainTop()), 0)
  {
    var inner, middle, top := Dump(ChainInner()), Dump(ChainMiddle()), Dump(ChainTop());
    assert Steady(inner, 1);
    assert SteadyBody(middle[2]);
    assert Steady(middle, 1);
    assert SteadyBody(top[2]);
  }

  /** The three-level chain survives dump and restore as written, snapshot and text alike. */
  lemma ChainRoundTrip()
    ensures AllRestorable(Dump(ChainTop())) && Replay(Dump(ChainTop())).Ok?
    ensures Dump(Replay(Dump(ChainTop())).value) == Dump(ChainTop())
    ensures Render(Replay(Dump(ChainTop())).value) == Render(ChainTop())
  {
    ChainShape();
    ChainSteady();
    ConditionRoundTrip(ChainTop());
    RestoreKeepsTextWhenSteady(ChainTop());
  }
}
