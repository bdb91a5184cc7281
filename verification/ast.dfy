/** The parse results of the SELECT parser and the condition parser, and the
    way they print. */
module Ast {
  import opened Tokens

  /** A selected column or table, with an optional alias ("" when absent). */
  datatype Field = Field(name: string, alias: string)

  datatype SelectStatement = SelectStatement(fieldList: seq<Field>, tableList: seq<Field>)

  /** A condition tree: a comparison leaf holding its identifier, or a
      conjunction of two conditions under AND or OR. */
  datatype Cond =
    | Comp(ident: string)
    | Conj(op: Token, left: Cond, right: Cond)

  /** The bare name without an alias, else the name, a space and the alias. */
  function FieldString(f: Field): string
  {
    if |f.alias| < 1 then f.name else f.name + " " + f.alias
  }

  /** "" for no fields, otherwise the fields joined by ", " (the first field,
      then recursively the rest). */
  function FieldsString(fs: seq<Field>): string
  {
    if |fs| < 1 then ""
    else if |fs| == 1 then FieldString(fs[0])
    else FieldString(fs[0]) + ", " + FieldsString(fs[1..])
  }

  function StatementString(s: SelectStatement): string
  {
    "SELECT " + FieldsString(s.fieldList) + " FROM " + FieldsString(s.tableList)
  }

  /** A leaf prints as its identifier, a conjunction as "(L OP R)" with the
      operator's token name. */
  function CondString(c: Cond): string
  {
    match c
    case Comp(ident) => ident
    case Conj(op, left, right) => "(" + CondString(left) + " " + Name(op) + " " + CondString(right) + ")"
  }

  /** Reference definition of a list joined by ", ", built from the end. */
  function JoinFields(fs: seq<Field>): string
  {
    if |fs| == 0 then ""
    else if |fs| == 1 then FieldString(fs[0])
    else JoinFields(fs[..|fs| - 1]) + ", " + FieldString(fs[|fs| - 1])
  }

  /** Printing a concatenation of two non-empty lists puts ", " between them. */
  lemma {:induction false} FieldsStringAppend(a: seq<Field>, b: seq<Field>)
    requires |a| >= 1 && |b| >= 1
    ensures FieldsString(a + b) == FieldsString(a) + ", " + FieldsString(b)
    decreases |a|
  {
    var head := FieldString(a[0]);
    assert (a + b)[0] == a[0];
    if |a| == 1 {
      assert (a + b)[1..] == b;
    } else {
      assert (a + b)[1..] == a[1..] + b;
      FieldsStringAppend(a[1..], b);
      var rest, tail := FieldsString(a[1..]), FieldsString(b);
      assert FieldsString(a + b) == head + ", " + (rest + ", " + tail);
      assert FieldsString(a) == head + ", " + rest;
    }
  }

  /** The recursive printer agrees with joining the printed fields by ", ". */
  lemma {:induction false} FieldsStringIsJoin(fs: seq<Field>)
    ensures FieldsString(fs) == JoinFields(fs)
    decreases |fs|
  {
    if |fs| >= 2 {
      var init, last := fs[..|fs| - 1], [fs[|fs| - 1]];
      assert fs == init + last;
      FieldsStringIsJoin(init);
      FieldsStringAppend(init, last);
    }
  }

  /** A field list prints as "" exactly when it is empty. */
  lemma FieldsStringEmpty(fs: seq<Field>)
    requires forall i :: 0 <= i < |fs| ==> fs[i].name != ""
    ensures FieldsString(fs) == "" <==> |fs| == 0
  {
  }

  /** The printed examples of the field list printer. */
  lemma FieldsStringExamples()
    ensures FieldsString([Field("f1", "")]) == "f1"
    ensures FieldsString([Field("f1", "a1")]) == "f1 a1"
    ensures FieldsString([Field("f1", "a1"), Field("f2", "a2")]) == "f1 a1, f2 a2"
    ensures FieldsString([Field("f1", "a1"), Field("f2", ""), Field("f3", "a3")]) == "f1 a1, f2, f3 a3"
  {
  }

  /** The printed forms of the trees built in the condition parser's examples. */
  lemma CondStringExamples()
    ensures CondString(Comp("A")) == "A"
    ensures CondString(Conj(And, Comp("A"), Comp("B"))) == "(A AND B)"
    ensures CondString(Conj(Or, Conj(And, Comp("A"), Comp("B")), Comp("C"))) == "((A AND B) OR C)"
  {
  }
}
