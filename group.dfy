/**
 * `Group` (src/group.ts): the older variant of the condition builder. It
 * appends and renders exactly as `Condition` does (module Slots), carries a
 * constructor `operator` that nothing reads, hands its leaves a restricted
 * hook set, and serialises to a flat alternating array instead of records.
 */
module Groups {
  import opened Wrappers
  import opened Expressions
  import opened Slots

  /** The hooks a group passes to its leaves: `options.expression`. */
  datatype Hooks = Hooks(renderKey: Option<Renderer>, renderValue: Option<Renderer>, renderOperator: Option<Renderer>)

  const NoGroupHooks: Hooks := Hooks(None, None, None)

  datatype GroupOptions = GroupOptions(expression: Hooks)

  /** The options `{}` (an absent `expression` stands for the empty hook set). */
  const NoGroupOptions: GroupOptions := GroupOptions(NoGroupHooks)

  /** The hook set a leaf created by a group receives: no validator, no whole-expression renderer. */
  function LeafOptions(h: Hooks): (o: Options)
    ensures o.validate.None? && o.renderExpression.None?
    ensures o.renderKey == h.renderKey && o.renderValue == h.renderValue && o.renderOperator == h.renderOperator
  {
    Options(None, h.renderKey, h.renderValue, h.renderOperator, None)
  }

  /** One element of the alternating `toJSON` array. */
  datatype Item =
    | Entry(context: Context)    // a leaf's `{key, operator, value}`
    | Nested(items: seq<Item>)   // a nested group's own alternating array
    | Operator(join: Join)       // the join between two payloads

  /** A slot's payload in `toJSON`. */
  function ItemOf(s: Slot): (r: Item)
    ensures s.payload.Leaf? ==> r == Entry(s.payload.expr.ToJSON())
    ensures s.payload.Sub? ==> r.Nested?
    decreases s
  {
    match s.payload
    case Leaf(e) => Entry(e.ToJSON())
    case Sub(ss) => Nested(GroupJson(ss))
  }

  /** The `reduce`: each slot contributes its payload's JSON followed by its join. */
  function Flat(slots: seq<Slot>): (r: seq<Item>)
    ensures |r| == 2 * |slots|
    decreases slots, 0
  {
    if |slots| == 0 then [] else [ItemOf(slots[0]), Operator(slots[0].op)] + Flat(slots[1..])
  }

  /** `toJSON`: the reduced array without its last element (`slice(0, -1)` keeps `[]` empty). */
  function GroupJson(slots: seq<Slot>): (r: seq<Item>)
    ensures |r| == (if |slots| == 0 then 0 else 2 * |slots| - 1)
    decreases slots, 1
  {
    var flat := Flat(slots);
    if |flat| == 0 then [] else flat[..|flat| - 1]
  }

  lemma {:induction false} FlatAt(slots: seq<Slot>)
    ensures forall i :: 0 <= i < |slots| ==> Flat(slots)[2 * i] == ItemOf(slots[i])
    ensures forall i :: 0 <= i < |slots| ==> Flat(slots)[2 * i + 1] == Operator(slots[i].op)
  {
    if |slots| > 0 {
      var rest := slots[1..];
      FlatAt(rest);
      var f := Flat(slots);
      assert f == [ItemOf(slots[0]), Operator(slots[0].op)] + Flat(rest);
      forall i | 1 <= i < |slots|
        ensures f[2 * i] == ItemOf(slots[i]) && f[2 * i + 1] == Operator(slots[i].op)
      {
        assert f[2 * i] == Flat(rest)[2 * (i - 1)];
        assert f[2 * i + 1] == Flat(rest)[2 * (i - 1) + 1];
        assert rest[i - 1] == slots[i];
      }
    }
  }

  /**
   * The alternating form: 2n - 1 items for n slots (none when empty), the
   * payloads at even positions in order, and at odd position 2i + 1 the join
   * of slot i; the last slot's join is dropped.
   */
  lemma GroupJsonShape(slots: seq<Slot>)
    ensures var r := GroupJson(slots);
            && |r| == (if |slots| == 0 then 0 else 2 * |slots| - 1)
            && (forall i :: 0 <= i < |slots| ==> r[2 * i] == ItemOf(slots[i]))
            && (forall i :: 0 <= i < |slots| - 1 ==> r[2 * i + 1] == Operator(slots[i].op))
  {
    FlatAt(slots);
  }

  /** Nested groups serialise recursively, in payload position. */
  lemma GroupJsonNested(slots: seq<Slot>, i: nat)
    requires i < |slots| && slots[i].payload.Sub?
    ensures GroupJson(slots)[2 * i] == Nested(GroupJson(slots[i].payload.slots))
  {
    GroupJsonShape(slots);
  }

  /** Like the text, the JSON never shows the last slot's join. */
  lemma GroupJsonIgnoresLastJoin(slots: seq<Slot>, j: Join)
    ensures GroupJson(SetLast(slots, j)) == GroupJson(slots)
  {
    var a, b := GroupJson(SetLast(slots, j)), GroupJson(slots);
    GroupJsonShape(SetLast(slots, j));
    GroupJsonShape(slots);
    forall k | 0 <= k < |a| ensures a[k] == b[k] {
      if k % 2 == 0 {
        assert a[2 * (k / 2)] == ItemOf(SetLast(slots, j)[k / 2]);
      } else {
        assert a[2 * (k / 2) + 1] == Operator(SetLast(slots, j)[k / 2].op);
      }
    }
  }

  lemma {:induction false} FlatConcat(a: seq<Slot>, b: seq<Slot>)
    ensures Flat(a + b) == Flat(a) + Flat(b)
  {
    if |a| > 0 {
      assert (a + b)[1..] == a[1..] + b;
      FlatConcat(a[1..], b);
    } else {
      assert a + b == b;
    }
  }

  /** An append extends the JSON by the new join and the new payload and changes nothing before. */
  lemma GroupJsonAppend(slots: seq<Slot>, p: Payload, j: Join)
    ensures GroupJson(Append(slots, p, j))
            == if |slots| == 0 then [ItemOf(Slot(j, p))]
               else GroupJson(slots) + [Operator(j), ItemOf(Slot(j, p))]
  {
    var item := ItemOf(Slot(j, p));
    FlatConcat(SetLast(slots, j), [Slot(j, p)]);
    assert Flat([Slot(j, p)]) == [item, Operator(j)];
    if |slots| > 0 {
      var n := |slots|;
      var init, last := slots[..n - 1], slots[n - 1];
      assert slots == init + [last];
      assert SetLast(slots, j) == init + [last.(op := j)];
      FlatConcat(init, [last]);
      FlatConcat(init, [last.(op := j)]);
      assert ItemOf(last.(op := j)) == ItemOf(last);
      assert Flat([last]) == [ItemOf(last), Operator(last.op)];
      assert Flat([last.(op := j)]) == [ItemOf(last), Operator(j)];
      assert GroupJson(slots) == Flat(init) + [ItemOf(last)];
    }
  }

  class Group {
    /** The constructor's `operator`; stored, and read by neither `toString` nor `toJSON`. */
    var operator: Join
    var options: GroupOptions
    /** `#content`. */
    var content: seq<Slot>

    constructor (operator: Join := Join.And, options: GroupOptions := NoGroupOptions)
      ensures this.operator == operator && this.options == options && content == []
    {
      this.operator := operator;
      this.options := options;
      content := [];
    }

    /** `#setPreviousAs`. */
    method SetPreviousAs(op: Join)
      modifies this`content
      ensures content == SetLast(old(content), op)
    {
      if |content| > 0 {
        content := content[|content| - 1 := content[|content| - 1].(op := op)];
      }
    }

    /** `#addExpression`: a group's leaves have no validator, so this never fails. */
    method AddExpression(key: string, operator: string, value: string, join: Join) returns (r: Group)
      modifies this`content
      ensures r == this
      ensures content == Append(old(content), Leaf(Expression(key, operator, value, LeafOptions(options.expression))), join)
    {
      SetPreviousAs(join);
      var e := NewExpression(key, operator, value, LeafOptions(options.expression));
      content := content + [Slot(join, Leaf(e.value))];
      return this;
    }

    /**
     * `#addGroup`: the child's `options.expression` is replaced by this
     * group's; the leaves the child already holds keep the hooks they were
     * built with.
     */
    method AddGroup(child: Group, join: Join) returns (r: Group)
      requires child != this
      modifies this`content, child`options
      ensures r == this && child.options == old(child.options).(expression := options.expression)
      ensures content == Append(old(content), Sub(old(child.content)), join)
      ensures child.content == old(child.content)
    {
      SetPreviousAs(join);
      child.options := child.options.(expression := options.expression);
      content := content + [Slot(join, Sub(child.content))];
      return this;
    }

    method And(key: string, operator: string, value: string) returns (r: Group)
      modifies this`content
      ensures r == this
      ensures content == Append(old(content), Leaf(Expression(key, operator, value, LeafOptions(options.expression))), Join.And)
    {
      r := AddExpression(key, operator, value, Join.And);
    }

    method AndGroup(child: Group) returns (r: Group)
      requires child != this
      modifies this`content, child`options
      ensures r == this && child.options == old(child.options).(expression := options.expression)
      ensures content == Append(old(content), Sub(old(child.content)), Join.And)
      ensures child.content == old(child.content)
    {
      r := AddGroup(child, Join.And);
    }

    method Or(key: string, operator: string, value: string) returns (r: Group)
      modifies this`content
      ensures r == this
      ensures content == Append(old(content), Leaf(Expression(key, operator, value, LeafOptions(options.expression))), Join.Or)
    {
      r := AddExpression(key, operator, value, Join.Or);
    }

    method OrGroup(child: Group) returns (r: Group)
      requires child != this
      modifies this`content, child`options
      ensures r == this && child.options == old(child.options).(expression := options.expression)
      ensures content == Append(old(content), Sub(old(child.content)), Join.Or)
      ensures child.content == old(child.content)
    {
      r := AddGroup(child, Join.Or);
    }

    /** `toJSON`: payloads at even positions, the joins between them at odd positions. */
    function ToJSON(): (r: seq<Item>)
      reads this`content
      ensures |r| == (if |content| == 0 then 0 else 2 * |content| - 1)
      ensures forall i :: 0 <= i < |content| ==> r[2 * i] == ItemOf(content[i])
      ensures forall i :: 0 <= i < |content| - 1 ==> r[2 * i + 1] == Operator(content[i].op)
    {
      GroupJsonShape(content);
      GroupJson(content)
    }

    /** `toString`: the same rendering as `Condition`'s. */
    function ToString(): (r: string)
      reads this`content
      ensures |content| == 0 ==> r == ""
      ensures |content| == 1 ==> r == Text(content[0])
      ensures |content| > 1 ==> r == Text(content[0]) + Sep(content[0].op) + Render(content[1..])
    {
      if |content| == 0 then "" else RenderUnfold(content); Render(content)
    }
  }

  /** A leaf as a hook-less group creates it. */
  function PlainLeaf(key: string, operator: string, value: string): Payload {
    Leaf(Expression(key, operator, value, LeafOptions(NoGroupHooks)))
  }

  /** `new Group().and("foo", "eq", "bar").or("baz", "neq", "bat")`. */
  function TwoLeaves(): seq<Slot> {
    Append(Append([], PlainLeaf("foo", "eq", "bar"), Join.And), PlainLeaf("baz", "neq", "bat"), Join.Or)
  }

  lemma TwoLeavesJson()
    ensures GroupJson(TwoLeaves()) == [Entry(Context("foo", "eq", "bar")), Operator(Join.Or), Entry(Context("baz", "neq", "bat"))]
  {
    var s1 := Append([], PlainLeaf("foo", "eq", "bar"), Join.And);
    GroupJsonAppend([], PlainLeaf("foo", "eq", "bar"), Join.And);
    GroupJsonAppend(s1, PlainLeaf("baz", "neq", "bat"), Join.Or);
  }

  lemma TwoLeavesText()
    ensures Render(TwoLeaves()) == "foo=bar" + " or " + "baz!=bat"
  {
    var s := TwoLeaves();
    assert s == [Slot(Join.Or, PlainLeaf("foo", "eq", "bar")), Slot(Join.Or, PlainLeaf("baz", "neq", "bat"))];
    RenderTwo(s);
    FooBarText();
    BazBatText();
    assert Sep(Join.Or) == " or " by {
      assert " " + "or" == " or";
    }
  }

  lemma FooBarText()
    ensures Text(Slot(Join.Or, PlainLeaf("foo", "eq", "bar"))) == "foo=bar"
  {
  }

  lemma BazBatText()
    ensures Text(Slot(Join.Or, PlainLeaf("baz", "neq", "bat"))) == "baz!=bat"
  {
  }

  /**
   * Attaching a child whose leaf was built with a value hook: the child takes
   * the parent's (empty) hooks, yet its leaf still renders with its own.
   */
  method GroupUsage() returns (json: seq<Item>, childText: string, childHooks: Hooks)
    ensures json == [Entry(Context("a", "eq", "b")), Operator(Join.Or), Nested([Entry(Context("c", "lt", "d"))])]
    ensures childText == "c<X"
    ensures childHooks == NoGroupHooks
  {
    var g := new Group();
    var child := new Group(Join.Or, GroupOptions(ValueHookX()));
    var _ := child.And("c", "lt", "d");
    assert child.content == [HookedLeaf()];
    var _ := g.And("a", "eq", "b");
    var first := [Slot(Join.And, PlainLeaf("a", "eq", "b"))];
    assert g.content == first;
    var _ := g.OrGroup(child);
    json := g.ToJSON();
    childText := child.ToString();
    childHooks := child.options.expression;
    assert g.content == Append(first, Sub([HookedLeaf()]), Join.Or);
    UsageJson();
    HookedLeafText();
  }

  /** Hooks whose value hook renders every value as `X`. */
  function ValueHookX(): Hooks {
    Hooks(None, Some((c: Context) => "X"), None)
  }

  /** The leaf `and("c", "lt", "d")` builds in a group with those hooks. */
  function HookedLeaf(): Slot {
    Slot(Join.And, Leaf(Expression("c", "lt", "d", LeafOptions(ValueHookX()))))
  }

  lemma HookedLeafText()
    ensures Render([HookedLeaf()]) == "c<X"
  {
    assert Text(HookedLeaf()) == "c<X";
  }

  lemma UsageJson()
    ensures GroupJson(Append([Slot(Join.And, PlainLeaf("a", "eq", "b"))], Sub([HookedLeaf()]), Join.Or))
            == [Entry(Context("a", "eq", "b")), Operator(Join.Or), Nested([Entry(Context("c", "lt", "d"))])]
  {
    var first := [Slot(Join.And, PlainLeaf("a", "eq", "b"))];
    GroupJsonAppend(first, Sub([HookedLeaf()]), Join.Or);
    assert GroupJson(first) == [Entry(Context("a", "eq", "b"))] by {
      GroupJsonShape(first);
    }
    assert GroupJson([HookedLeaf()]) == [Entry(Context("c", "lt", "d"))] by {
      GroupJsonShape([HookedLeaf()]);
    }
    assert ItemOf(Slot(Join.Or, Sub([HookedLeaf()]))) == Nested([Entry(Context("c", "lt", "d"))]);
  }
}
