/**
 * The slot sequence shared by `Condition` (src/condition.ts) and `Group`
 * (src/group.ts): a slot holds one payload, a leaf expression or a nested
 * slot sequence, and the join operator rendered between it and the next slot.
 * Both builders append with the same retroactive rule and render with the
 * same reduce/slice/join, which this module defines once.
 */
module Slots {
  import opened Wrappers
  import opened Expressions

  /** The join operator `"and" | "or"`. */
  datatype Join = And | Or

  /** The word a join renders as. */
  function Word(j: Join): string {
    match j
    case And => "and"
    case Or => "or"
  }

  /** Exactly one payload per slot; a nested builder is held by its slots. */
  datatype Payload = Leaf(expr: Expression) | Sub(slots: seq<Slot>)

  datatype Slot = Slot(op: Join, payload: Payload)

  /** `#setPreviousAs(j)`: overwrite the join of the last slot, if there is one. */
  function SetLast(slots: seq<Slot>, j: Join): (r: seq<Slot>)
    ensures |r| == |slots|
    ensures |slots| > 0 ==> r[|slots| - 1] == Slot(j, slots[|slots| - 1].payload)
    ensures forall i :: 0 <= i < |slots| - 1 ==> r[i] == slots[i]
  {
    if |slots| == 0 then slots else slots[..|slots| - 1] + [slots[|slots| - 1].(op := j)]
  }

  /**
   * One append with join `j`: the previous last slot takes `j` as its join,
   * then a slot carrying `j` and the payload is pushed.
   */
  function Append(slots: seq<Slot>, payload: Payload, j: Join): (r: seq<Slot>)
    ensures |r| == |slots| + 1
    ensures r[|slots|] == Slot(j, payload)
    ensures |slots| > 0 ==> r[|slots| - 1] == Slot(j, slots[|slots| - 1].payload)
    ensures forall i :: 0 <= i < |slots| - 1 ==> r[i] == slots[i]
  {
    SetLast(slots, j) + [Slot(j, payload)]
  }

  /** The slots of a fresh builder after successfully appending `payloads[i]` with `joins[i]`, in order. */
  function Build(payloads: seq<Payload>, joins: seq<Join>): (r: seq<Slot>)
    requires |payloads| == |joins|
    ensures |r| == |payloads|
  {
    if |payloads| == 0 then []
    else
      var n := |payloads|;
      Append(Build(payloads[..n - 1], joins[..n - 1]), payloads[n - 1], joins[n - 1])
  }

  /**
   * Any sequence of successful appends leaves slot i with payload i; slot
   * i < n - 1 holds the join of append i + 1 and the last slot the join of
   * the last append, so the last two slots share their join. (A rejected leaf
   * in `Condition` overwrites the last join without appending, after which
   * they can differ.)
   */
  lemma {:induction false} BuildShape(payloads: seq<Payload>, joins: seq<Join>)
    requires |payloads| == |joins|
    ensures var r := Build(payloads, joins);
            && |r| == |payloads|
            && (forall i :: 0 <= i < |r| ==> r[i].payload == payloads[i])
            && (forall i :: 0 <= i < |r| - 1 ==> r[i].op == joins[i + 1])
            && (|r| > 0 ==> r[|r| - 1].op == joins[|r| - 1])
            && (|r| >= 2 ==> r[|r| - 1].op == r[|r| - 2].op)
  {
    var n := |payloads|;
    if n > 0 {
      var ps, js := payloads[..n - 1], joins[..n - 1];
      var prev := Build(ps, js);
      BuildShape(ps, js);
      var r := Append(prev, payloads[n - 1], joins[n - 1]);
      assert r == Build(payloads, joins);
      forall i | 0 <= i < n ensures r[i].payload == payloads[i] {
        if i < n - 1 { assert ps[i] == payloads[i]; }
      }
      forall i | 0 <= i < n - 1 ensures r[i].op == joins[i + 1] {
        if i < n - 2 { assert js[i + 1] == joins[i + 1]; }
      }
    }
  }

  // ---------------------------------------------------------------------------
  // toString

  /** What stands between two rendered slots: the join word with a space on each side. */
  function Sep(j: Join): string {
    " " + Word(j) + " "
  }

  lemma ConcatAssoc(a: string, b: string, c: string)
    ensures a + (b + c) == (a + b) + c
  {
  }

  /** `Array.prototype.join(sep)`. */
  function JoinWith(parts: seq<string>, sep: string): string {
    if |parts| == 0 then ""
    else if |parts| == 1 then parts[0]
    else parts[0] + sep + JoinWith(parts[1..], sep)
  }

  /** A slot's payload rendering: a leaf with its own hooks, a nested sequence always in parentheses. */
  function Text(s: Slot): (r: string)
    ensures s.payload.Sub? ==> |r| >= 2 && r[0] == '(' && r[|r| - 1] == ')'
    decreases s
  {
    match s.payload
    case Leaf(e) => Show(e, NoOptions)
    case Sub(ss) => "(" + Render(ss) + ")"
  }

  /** The `reduce`: each slot contributes its rendering followed by its join word. */
  function Pieces(slots: seq<Slot>): (r: seq<string>)
    ensures |r| == 2 * |slots|
    decreases slots, 0
  {
    if |slots| == 0 then []
    else [Text(slots[0]), Word(slots[0].op)] + Pieces(slots[1..])
  }

  /** `toString`: "" when empty, else the pieces without the trailing join, joined by spaces. */
  function Render(slots: seq<Slot>): (r: string)
    ensures |slots| == 0 ==> r == ""
    ensures |slots| == 1 ==> r == Text(slots[0])
    decreases slots, 1
  {
    if |slots| == 0 then ""
    else
      var pieces := Pieces(slots);
      JoinWith(pieces[..|pieces| - 1], " ")
  }

  lemma JoinWithCons(a: string, rest: seq<string>, sep: string)
    requires |rest| > 0
    ensures JoinWith([a] + rest, sep) == a + sep + JoinWith(rest, sep)
  {
    assert ([a] + rest)[1..] == rest;
  }

  lemma JoinWithTwoCons(a: string, b: string, rest: seq<string>, sep: string)
    requires |rest| > 0
    ensures JoinWith([a, b] + rest, sep) == a + (sep + b + sep) + JoinWith(rest, sep)
  {
    var j := JoinWith(rest, sep);
    assert [a, b] + rest == [a] + ([b] + rest);
    JoinWithCons(b, rest, sep);
    JoinWithCons(a, [b] + rest, sep);
    assert JoinWith([a, b] + rest, sep) == (a + sep) + ((b + sep) + j);
    ConcatAssoc(a + sep, b + sep, j);
    ConcatAssoc(a + sep, b, sep);
    ConcatAssoc(a, sep, b);
    ConcatAssoc(a, sep + b, sep);
  }

  lemma DropLastCons<T>(front: seq<T>, tail: seq<T>)
    requires |tail| > 0
    ensures (front + tail)[..|front| + |tail| - 1] == front + tail[..|tail| - 1]
  {
  }

  /**
   * The rendering spelled out slot by slot: every slot but the last is
   * followed by `" " + join + " "`, the last slot's join is never emitted.
   */
  lemma {:induction false} RenderUnfold(slots: seq<Slot>)
    requires |slots| > 0
    ensures Render(slots)
            == if |slots| == 1 then Text(slots[0])
               else Text(slots[0]) + Sep(slots[0].op) + Render(slots[1..])
  {
    var t, w, rest := Text(slots[0]), Word(slots[0].op), slots[1..];
    var pieces := Pieces(slots);
    assert pieces == [t, w] + Pieces(rest);
    if |rest| == 0 {
      assert pieces[..|pieces| - 1] == [t];
    } else {
      var tail := Pieces(rest);
      var dropped := tail[..|tail| - 1];
      assert Render(rest) == JoinWith(dropped, " ");
      DropLastCons([t, w], tail);
      JoinWithTwoCons(t, w, dropped, " ");
    }
  }
  /** Two slots render as the first text, its join word and the second text. */
  lemma RenderTwo(slots: seq<Slot>)
    requires |slots| == 2
    ensures Render(slots) == Text(slots[0]) + Sep(slots[0].op) + Text(slots[1])
  {
    RenderUnfold(slots);
    RenderUnfold(slots[1..]);
  }

  /** Three slots render as the first text, its join word, the second text, its join word, the third text. */
  lemma RenderThree(slots: seq<Slot>)
    requires |slots| == 3
    ensures Render(slots)
            == Text(slots[0]) + Sep(slots[0].op) + Text(slots[1]) + Sep(slots[1].op) + Text(slots[2])
  {
    RenderUnfold(slots);
    RenderUnfold(slots[1..]);
    assert slots[1..][1..] == slots[2..];
    var head, mid := Text(slots[0]) + Sep(slots[0].op), Text(slots[1]) + Sep(slots[1].op);
    ConcatAssoc(head, mid, Text(slots[2]));
    ConcatAssoc(head, Text(slots[1]), Sep(slots[1].op));
  }


  /** The last slot's join never reaches the text. */
  lemma {:induction false} RenderIgnoresLastJoin(slots: seq<Slot>, j: Join)
    ensures Render(SetLast(slots, j)) == Render(slots)
  {
    if |slots| > 0 {
      var s := SetLast(slots, j);
      RenderUnfold(slots);
      RenderUnfold(s);
      if |slots| > 1 {
        assert s[1..] == SetLast(slots[1..], j);
        RenderIgnoresLastJoin(slots[1..], j);
      }
    }
  }

  lemma AppendTail(slots: seq<Slot>, p: Payload, j: Join)
    requires |slots| > 1
    ensures Append(slots, p, j)[0] == slots[0]
    ensures Append(slots, p, j)[1..] == Append(slots[1..], p, j)
  {
    var s, t := Append(slots, p, j), Append(slots[1..], p, j);
    assert |s[1..]| == |t|;
    forall i | 0 <= i < |t| ensures s[1..][i] == t[i] {
      if i < |t| - 2 {
        assert t[i] == slots[1..][i];
      }
    }
  }

  /** Appending renders the old text, the new join word and the new payload. */
  lemma {:induction false} RenderAppend(slots: seq<Slot>, p: Payload, j: Join)
    ensures Render(Append(slots, p, j))
            == if |slots| == 0 then Text(Slot(j, p)) else Render(slots) + Sep(j) + Text(Slot(j, p))
  {
    var s := Append(slots, p, j);
    var last := Text(Slot(j, p));
    RenderUnfold(s);
    if |slots| == 1 {
      RenderUnfold(slots);
      assert s[1..] == [Slot(j, p)];
      RenderUnfold(s[1..]);
      assert Text(s[0]) == Text(slots[0]) by { assert s[0].payload == slots[0].payload; }
    } else if |slots| > 1 {
      var head := Text(slots[0]) + Sep(slots[0].op);
      AppendTail(slots, p, j);
      RenderAppend(slots[1..], p, j);
      RenderUnfold(slots);
      ConcatAssoc(head, Render(slots[1..]) + Sep(j), last);
      ConcatAssoc(head, Render(slots[1..]), Sep(j));
    }
  }

  /** A nested sequence is parenthesised even when it holds a single leaf. */
  lemma RenderSingleLeafSub(e: Expression, j: Join, k: Join)
    ensures Render([Slot(j, Sub([Slot(k, Leaf(e))]))]) == "(" + Show(e, NoOptions) + ")"
  {
    RenderUnfold([Slot(j, Sub([Slot(k, Leaf(e))]))]);
    RenderUnfold([Slot(k, Leaf(e))]);
  }
}
