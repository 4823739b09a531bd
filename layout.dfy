/** A reference layout for the JavaScript object literals the templates
    write: one `key: value` entry per line, entries separated by commas, the
    closing brace on a line of its own. */
module ObjectLayout {
  import opened Wrappers
  import opened EntryLines
  import opened Enclosing

  datatype Field = Field(key: string, value: string)

  /** One `key: value` entry per line, entries separated by commas. */
  function Entries(indent: string, fields: seq<Field>): string
    decreases |fields|
  {
    if fields == [] then ""
    else
      Line(indent, fields[0].key) + fields[0].value
      + (if |fields| == 1 then "" else ",") + Entries(indent, fields[1..])
  }

  /** An object literal with its entries indented by `indent`, an optional
      comma after the last entry and the closing brace indented by
      `closing`. */
  function ObjectLiteral(indent: string, closing: string, fields: seq<Field>, trailingComma: bool): (r: string)
    ensures "{" <= r && r[|r| - 1] == '}'
  {
    "{" + Entries(indent, fields) + (if trailingComma then "," else "") + "\n" + closing + "}"
  }

  /** An object literal followed by a comma opens with `{` and ends with `},`. */
  lemma CommaAfterLiteral(r: string)
    requires "{" <= r && r[|r| - 1] == '}'
    ensures "{" <= r + "," && EndsWith(r + ",", "},")
  {
    assert (r + ",")[|r + ","| - 2..] == [r[|r| - 1], ','];
  }

  /** Two array elements written one after the other still open with `{`
      and end with `},`. */
  lemma ElementsConcatenate(a: string, b: string)
    requires "{" <= a && EndsWith(a, "},")
    requires "{" <= b && EndsWith(b, "},")
    ensures "{" <= a + b && EndsWith(a + b, "},")
  {
    assert (a + b)[|a + b| - 2..] == b[|b| - 2..];
    assert (a + b)[..1] == a[..1];
  }

  lemma PrefixOfAppend(p: string, x: string, y: string)
    requires p <= x
    ensures p <= x + y
  {
    assert (x + y)[..|x|] == x;
  }

  // The four layouts the templates use, flattened into the pieces between
  // the values, so that a template's literal text can be matched piece by
  // piece.

  lemma OneFieldTrailing(indent: string, closing: string, k: string, v: string)
    ensures ObjectLiteral(indent, closing, [Field(k, v)], true) ==
      ("{" + Line(indent, k)) + v + ("," + "\n" + closing + "}")
  {
    assert Entries(indent, [Field(k, v)]) == Line(indent, k) + v;
  }

  lemma TwoFields(indent: string, closing: string, k1: string, v1: string, k2: string, v2: string)
    ensures ObjectLiteral(indent, closing, [Field(k1, v1), Field(k2, v2)], false) ==
      ("{" + Line(indent, k1)) + v1 + ("," + Line(indent, k2)) + v2 + ("\n" + closing + "}")
  {
    var fs := [Field(k1, v1), Field(k2, v2)];
    assert Entries(indent, fs[1..]) == Line(indent, k2) + v2;
    assert Entries(indent, fs) == Line(indent, k1) + v1 + "," + (Line(indent, k2) + v2);
  }

  lemma FourFields(indent: string, closing: string, k1: string, v1: string, k2: string, v2: string,
                   k3: string, v3: string, k4: string, x4: string)
    ensures ObjectLiteral(indent, closing, [Field(k1, v1), Field(k2, v2), Field(k3, v3), Field(k4, "[" + x4 + "]")], false) + "," ==
      ("{" + Line(indent, k1)) + v1 + ("," + Line(indent, k2)) + v2 + ("," + Line(indent, k3)) + v3
      + ("," + Line(indent, k4) + "[") + x4 + ("]" + "\n" + closing + "},")
  {
    var fs := [Field(k1, v1), Field(k2, v2), Field(k3, v3), Field(k4, "[" + x4 + "]")];
    var e4 := Line(indent, k4) + ("[" + x4 + "]");
    assert Entries(indent, fs[3..]) == e4;
    var e3 := Line(indent, k3) + v3 + "," + e4;
    assert Entries(indent, fs[2..]) == e3;
    var e2 := Line(indent, k2) + v2 + "," + e3;
    assert Entries(indent, fs[1..]) == e2;
    var e1 := Line(indent, k1) + v1 + "," + e2;
    assert Entries(indent, fs) == e1;
    assert "}" + "," == "},";
    RegroupFour("{", Line(indent, k1), v1, ",", Line(indent, k2), v2, Line(indent, k3), v3,
      Line(indent, k4), "[", x4, "]", "\n", closing, "}", ",");
  }

  lemma FiveFields(indent: string, closing: string, k1: string, v1: string, k2: string, v2: string,
                   k3: string, v3: string, k4: string, v4: string, k5: string, x5: string)
    ensures ObjectLiteral(indent, closing, [Field(k1, v1), Field(k2, v2), Field(k3, v3), Field(k4, v4), Field(k5, "[" + x5 + "]")], false) + "," ==
      ("{" + Line(indent, k1)) + v1 + ("," + Line(indent, k2)) + v2 + ("," + Line(indent, k3)) + v3
      + ("," + Line(indent, k4)) + v4 + ("," + Line(indent, k5) + "[") + x5 + ("]" + "\n" + closing + "},")
  {
    var fs := [Field(k1, v1), Field(k2, v2), Field(k3, v3), Field(k4, v4), Field(k5, "[" + x5 + "]")];
    var e5 := Line(indent, k5) + ("[" + x5 + "]");
    assert Entries(indent, fs[4..]) == e5;
    var e4 := Line(indent, k4) + v4 + "," + e5;
    assert Entries(indent, fs[3..]) == e4;
    var e3 := Line(indent, k3) + v3 + "," + e4;
    assert Entries(indent, fs[2..]) == e3;
    var e2 := Line(indent, k2) + v2 + "," + e3;
    assert Entries(indent, fs[1..]) == e2;
    var e1 := Line(indent, k1) + v1 + "," + e2;
    assert Entries(indent, fs) == e1;
    assert "}" + "," == "},";
    RegroupFive("{", Line(indent, k1), v1, ",", Line(indent, k2), v2, Line(indent, k3), v3,
      Line(indent, k4), v4, Line(indent, k5), "[", x5, "]", "\n", closing, "}", ",");
  }

  // The regrouping lemmas below state only how a concatenation associates;
  // they carry no property of the model and exist to keep the layout proofs
  // within the solver's budget.

  lemma RegroupFour(o: string, l1: string, v1: string, c: string, l2: string, v2: string,
                    l3: string, v3: string, l4: string, lb: string, x: string, rb: string,
                    nl: string, cl: string, cb: string, cm: string)
    ensures o + (l1 + v1 + c + (l2 + v2 + c + (l3 + v3 + c + (l4 + (lb + x + rb))))) + nl + cl + cb + cm
      == (o + l1) + v1 + (c + l2) + v2 + (c + l3) + v3 + (c + l4 + lb) + x + (rb + nl + cl + (cb + cm))
  {
  }

  lemma RegroupFive(o: string, l1: string, v1: string, c: string, l2: string, v2: string,
                    l3: string, v3: string, l4: string, v4: string, l5: string, lb: string,
                    x: string, rb: string, nl: string, cl: string, cb: string, cm: string)
    ensures o + (l1 + v1 + c + (l2 + v2 + c + (l3 + v3 + c + (l4 + v4 + c + (l5 + (lb + x + rb)))))) + nl + cl + cb + cm
      == (o + l1) + v1 + (c + l2) + v2 + (c + l3) + v3 + (c + l4) + v4 + (c + l5 + lb) + x + (rb + nl + cl + (cb + cm))
  {
  }

  lemma Regroup2(a: string, b: string, x: string, c: string, d: string)
    ensures a + (b + x + c) + d == (a + b) + x + (c + d)
  {
  }

  lemma Regroup4(a: string, b: string, x: string, c: string, y: string, e: string, f: string)
    ensures a + (b + x + c + y + e) + f == (a + b) + x + c + y + (e + f)
  {
  }

  // Reading a token back out of emitted code.

  /** The prefix of `s` up to the first `stop`, or all of `s`. */
  function TakeUntil(s: string, stop: char): (r: string)
    ensures r <= s && stop !in r
  {
    if s == [] || s[0] == stop then [] else [s[0]] + TakeUntil(s[1..], stop)
  }

  /** Reading up to `stop` returns exactly the text before the first
      `stop`. */
  lemma {:induction false} TakeUntilPrefix(a: string, stop: char, s: string)
    requires stop !in a && a + [stop] <= s
    ensures TakeUntil(s, stop) == a
  {
    if a != [] {
      assert s[0] == a[0];
      assert a[1..] + [stop] <= s[1..];
      TakeUntilPrefix(a[1..], stop, s[1..]);
      assert [s[0]] + a[1..] == a;
    } else {
      assert s[0] == stop;
    }
  }

  /** The text between `opening` and the first `stop` after it, when `code`
      starts with `opening`. */
  function FieldAfter(opening: string, stop: char, code: string): (r: Option<string>)
  {
    if opening <= code then Some(TakeUntil(code[|opening|..], stop)) else None
  }

  /** A token followed by `stop` right after `opening` is read back whole. */
  lemma FieldAfterAt(opening: string, t: string, stop: char, code: string)
    requires stop !in t && opening + t + [stop] <= code
    ensures FieldAfter(opening, stop, code) == Some(t)
  {
    var n := |opening|;
    var p := opening + t + [stop];
    assert opening == p[..n];
    assert p[n..] == t + [stop];
    assert t + [stop] <= code[n..];
    TakeUntilPrefix(t, stop, code[n..]);
  }
}
