/**
 * The part of Go's fmt.Sprintf that the widget templates use: literal text is
 * copied, "%s" and "%v" are each replaced by the next string argument, and
 * "%%" stands for a single '%'. A verb with no argument left is rendered the
 * way Go renders it, as "%!s(MISSING)" or "%!v(MISSING)".
 */
module Fmt {
  import opened Seqs

  predicate IsStringVerb(c: char) {
    c == 's' || c == 'v'
  }

  /** Text that Sprintf copies verbatim. */
  predicate Literal(s: string) {
    '%' !in s
  }

  lemma LiteralJoin(a: string, b: string)
    requires Literal(a) && Literal(b)
    ensures Literal(a + b)
  {
  }

  function Sprintf(format: string, args: seq<string>): string
    decreases |format|
  {
    if |format| == 0 then ""
    else if format[0] == '%' && |format| >= 2 && IsStringVerb(format[1]) then
      if |args| > 0 then args[0] + Sprintf(format[2..], args[1..])
      else "%!" + [format[1]] + "(MISSING)" + Sprintf(format[2..], args)
    else if format[0] == '%' && |format| >= 2 && format[1] == '%' then
      "%" + Sprintf(format[2..], args)
    else
      [format[0]] + Sprintf(format[1..], args)
  }

  /** Literal text at the front of a format is copied unchanged and consumes no argument. */
  lemma {:induction false} SprintfLiteral(lit: string, rest: string, args: seq<string>)
    requires Literal(lit)
    ensures Sprintf(lit + rest, args) == lit + Sprintf(rest, args)
    decreases |lit|
  {
    if |lit| > 0 {
      var f := lit + rest;
      assert f[0] == lit[0] && f[1..] == lit[1..] + rest;
      assert lit[0] in lit && Literal(lit[1..]);
      assert Sprintf(f, args) == [lit[0]] + Sprintf(lit[1..] + rest, args);
      SprintfLiteral(lit[1..], rest, args);
      calc {
        Sprintf(f, args);
        [lit[0]] + (lit[1..] + Sprintf(rest, args));
        ([lit[0]] + lit[1..]) + Sprintf(rest, args);
        { assert [lit[0]] + lit[1..] == lit; }
        lit + Sprintf(rest, args);
      }
    } else {
      assert lit + rest == rest;
    }
  }

  /** A "%s" or "%v" at the front of a format is replaced by the first argument. */
  lemma SprintfVerb(verb: string, rest: string, arg: string, args: seq<string>)
    requires verb == "%s" || verb == "%v"
    ensures Sprintf(verb + rest, [arg] + args) == arg + Sprintf(rest, args)
  {
    var f := verb + rest;
    assert f[2..] == rest;
    assert ([arg] + args)[1..] == args;
  }

  /** A format of literal text alone is its own rendering. */
  lemma SprintfLiteralOnly(lit: string, args: seq<string>)
    requires Literal(lit)
    ensures Sprintf(lit, args) == lit
  {
    SprintfLiteral(lit, "", args);
    assert lit + "" == lit;
  }

  /** head verb mid verb tail, filled with two arguments, is the arguments spliced between the literal parts. */
  lemma SprintfTwoSlots(verb: string, head: string, mid: string, tail: string, a: string, b: string)
    requires verb == "%s" || verb == "%v"
    requires Literal(head) && Literal(mid) && Literal(tail)
    ensures Sprintf(head + verb + mid + verb + tail, [a, b]) == head + a + mid + b + tail
  {
    Regroup5(head, verb, mid, verb, tail);
    Regroup5(head, a, mid, b, tail);
    assert [a, b] == [a] + [b];
    assert [b] == [b] + [];
    calc {
      Sprintf(head + (verb + (mid + (verb + tail))), [a, b]);
      { SprintfLiteral(head, verb + (mid + (verb + tail)), [a, b]); }
      head + Sprintf(verb + (mid + (verb + tail)), [a, b]);
      { SprintfVerb(verb, mid + (verb + tail), a, [b]); }
      head + (a + Sprintf(mid + (verb + tail), [b]));
      { SprintfLiteral(mid, verb + tail, [b]); }
      head + (a + (mid + Sprintf(verb + tail, [b])));
      { SprintfVerb(verb, tail, b, []); }
      head + (a + (mid + (b + Sprintf(tail, []))));
      { SprintfLiteralOnly(tail, []); }
      head + (a + (mid + (b + tail)));
    }
  }

  /** head "%s" mid "%s%s" tail, filled with three arguments: the last two land side by side. */
  lemma SprintfThreeSlots(head: string, mid: string, tail: string, a: string, b: string, c: string)
    requires Literal(head) && Literal(mid) && Literal(tail)
    ensures Sprintf(head + "%s" + mid + "%s%s" + tail, [a, b, c]) == head + a + mid + b + c + tail
  {
    assert "%s%s" + tail == "%s" + ("%s" + tail);
    Regroup5(head, "%s", mid, "%s%s", tail);
    Regroup6(head, a, mid, b, c, tail);
    assert [a, b, c] == [a] + [b, c];
    assert [b, c] == [b] + [c];
    assert [c] == [c] + [];
    calc {
      Sprintf(head + ("%s" + (mid + ("%s" + ("%s" + tail)))), [a, b, c]);
      { SprintfLiteral(head, "%s" + (mid + ("%s" + ("%s" + tail))), [a, b, c]); }
      head + Sprintf("%s" + (mid + ("%s" + ("%s" + tail))), [a, b, c]);
      { SprintfVerb("%s", mid + ("%s" + ("%s" + tail)), a, [b, c]); }
      head + (a + Sprintf(mid + ("%s" + ("%s" + tail)), [b, c]));
      { SprintfLiteral(mid, "%s" + ("%s" + tail), [b, c]); }
      head + (a + (mid + Sprintf("%s" + ("%s" + tail), [b, c])));
      { SprintfVerb("%s", "%s" + tail, b, [c]); }
      head + (a + (mid + (b + Sprintf("%s" + tail, [c]))));
      { SprintfVerb("%s", tail, c, []); }
      head + (a + (mid + (b + (c + Sprintf(tail, [])))));
      { SprintfLiteralOnly(tail, []); }
      head + (a + (mid + (b + (c + tail))));
    }
  }
}
