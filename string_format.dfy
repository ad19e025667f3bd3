/**
 * `string.Format` over the fixed templates of the fixture generator, and
 * `string.Concat` over a list of strings.
 *
 * A template is the text of a C# format string cut at its `{i}` holes, kept
 * in reading order: `"<Audience>{0}</Audience>"` is
 * `Text("<Audience>", Hole(0, Text("</Audience>", Done)))`. No template here
 * uses braces escapes or alignment, so nothing else of the format-string
 * syntax is modelled.
 */
module StringFormat {

  datatype Template =
    | Done
    | Text(text: string, rest: Template)
    | Hole(index: nat, rest: Template)

  /** Largest hole index plus one: the number of arguments a template needs. */
  function Arity(t: Template): nat
  {
    match t
    case Done => 0
    case Text(_, r) => Arity(r)
    case Hole(i, r) => if i + 1 > Arity(r) then i + 1 else Arity(r)
  }

  /** The argument a hole stands for; `string.Format` raises FormatException
      when the index is out of range, which no emitter here reaches. */
  function Arg(args: seq<string>, i: nat): string
  {
    if i < |args| then args[i] else ""
  }

  /** Appends the rest of template `t`, filled from `args`, to `acc`. */
  function Emit(t: Template, args: seq<string>, acc: string): string
  {
    match t
    case Done => acc
    case Text(s, r) => Emit(r, args, acc + s)
    case Hole(i, r) => Emit(r, args, acc + Arg(args, i))
  }

  /** `string.Format(t, args...)`. */
  function Format(t: Template, args: seq<string>): string
  {
    match t
    case Text(s, r) => Emit(r, args, s)
    case _ => Emit(t, args, "")
  }

  /** The two unfolding rules of `Emit`, for any depth of template. */
  lemma FormatSteps(args: seq<string>)
    ensures forall s, r, acc {:trigger Emit(Text(s, r), args, acc)} ::
      Emit(Text(s, r), args, acc) == Emit(r, args, acc + s)
    ensures forall i: nat, r, acc {:trigger Emit(Hole(i, r), args, acc)} ::
      Emit(Hole(i, r), args, acc) == Emit(r, args, acc + Arg(args, i))
  {
  }

  /**
   * Reference reading of a template: each piece in turn, a hole replaced by
   * its argument. `Format` builds the same text left to right.
   */
  function Render(t: Template, args: seq<string>): string
  {
    match t
    case Done => ""
    case Text(s, r) => s + Render(r, args)
    case Hole(i, r) => Arg(args, i) + Render(r, args)
  }

  lemma {:induction false} EmitIsRender(t: Template, args: seq<string>, acc: string)
    ensures Emit(t, args, acc) == acc + Render(t, args)
  {
    match t
    case Done =>
    case Text(s, r) =>
      EmitIsRender(r, args, acc + s);
      assert (acc + s) + Render(r, args) == acc + (s + Render(r, args));
    case Hole(i, r) =>
      EmitIsRender(r, args, acc + Arg(args, i));
      assert (acc + Arg(args, i)) + Render(r, args) == acc + (Arg(args, i) + Render(r, args));
  }

  lemma FormatIsRender(t: Template, args: seq<string>)
    ensures Format(t, args) == Render(t, args)
  {
    match t
    case Text(s, r) =>
      EmitIsRender(r, args, s);
    case _ =>
      EmitIsRender(t, args, "");
      assert "" + Render(t, args) == Render(t, args);
  }

  /** `string.Concat(values)`: the values joined in order, with no separator. */
  function Concat(values: seq<string>): string
  {
    if values == [] then "" else values[0] + Concat(values[1..])
  }

  lemma {:induction false} ConcatAppend(a: seq<string>, b: seq<string>)
    ensures Concat(a + b) == Concat(a) + Concat(b)
  {
    if a == [] {
      assert a + b == b;
    } else {
      assert (a + b)[1..] == a[1..] + b;
      ConcatAppend(a[1..], b);
    }
  }

  lemma ConcatSingle(s: string)
    ensures Concat([s]) == s
  {
    assert [s][1..] == [];
  }

  /** Regrouping a concatenation, for proofs about long strings. */
  lemma Regroup<T>(a: seq<T>, b: seq<T>, c: seq<T>, d: seq<T>)
    ensures a + b + c + d == a + (b + (c + d))
  {
  }

  lemma Ungroup<T>(p: seq<T>, a: seq<T>, b: seq<T>, c: seq<T>, d: seq<T>)
    ensures p + (a + b + c) + d == p + a + b + c + d
  {
  }
}
