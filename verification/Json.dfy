/** The JSON text of the documents the vault writes, as JSON.stringify produces it: no white space,
    members in insertion order, strings without characters that need escaping. */
module Json {
  import opened Options
  import opened Decimal

  /** `Other` is anything else JSON.parse can return: an array, a number that is not a
      non-negative integer. It is never written. */
  datatype Json = Null | Bool(b: bool) | Num(n: nat) | Str(s: string) | Obj(members: Members) | Other

  datatype Members = End | Member(key: string, value: Json, rest: Members)

  function Lookup(ms: Members, key: string): Option<Json> {
    match ms
    case End => None
    case Member(k, v, rest) => if k == key then Some(v) else Lookup(rest, key)
  }

  /** Looking a name up past two members. */
  lemma LookupPast(a: string, va: Json, b: string, vb: Json, rest: Members, name: string)
    ensures var ms := Member(a, va, Member(b, vb, rest));
            Lookup(ms, name) == if name == a then Some(va) else if name == b then Some(vb) else Lookup(rest, name)
  {
    assert Lookup(Member(b, vb, rest), name) == if name == b then Some(vb) else Lookup(rest, name);
  }

  /** What may be written is read back exactly: safe integers, and strings that need no escape. */
  predicate Plain(j: Json) {
    match j
    case Num(n) => n <= MAX_SAFE_INTEGER
    case Str(s) => PlainText(s)
    case Obj(ms) => PlainMembers(ms)
    case Other => false
    case _ => true
  }

  /** No quote, backslash or control character: the string is its own escape. */
  predicate PlainText(s: string) {
    forall i :: 0 <= i < |s| ==> ' ' <= s[i] <= '~' && s[i] != '"' && s[i] != '\\'
  }

  predicate PlainMembers(ms: Members) {
    match ms
    case End => true
    case Member(k, v, rest) => PlainText(k) && Plain(v) && PlainMembers(rest)
  }

  lemma PlainPast(a: string, va: Json, b: string, vb: Json, rest: Members)
    ensures PlainMembers(Member(a, va, Member(b, vb, rest)))
            <==> PlainText(a) && Plain(va) && PlainText(b) && Plain(vb) && PlainMembers(rest)
  {
    assert PlainMembers(Member(b, vb, rest)) <==> PlainText(b) && Plain(vb) && PlainMembers(rest);
  }

  function Stringify(j: Json): string {
    match j
    case Null => "null"
    case Bool(b) => if b then "true" else "false"
    case Num(n) => Numeral(n)
    case Str(s) => "\"" + s + "\""
    case Obj(ms) => "{" + StringifyMembers(ms) + "}"
    case Other => "[]"
  }

  function StringifyMembers(ms: Members): string {
    match ms
    case End => ""
    case Member(k, v, rest) =>
      "\"" + k + "\":" + Stringify(v) + (if rest.End? then "" else "," + StringifyMembers(rest))
  }

  // ---------------------------------------------------------------- unique readability

  /** What may follow a value: nothing, or a character that ends a number. */
  predicate Follows(x: string) {
    |x| > 0 ==> !IsDigit(x[0])
  }

  lemma {:induction false} QuotedIsUnique(s: string, t: string, x: string, y: string)
    requires PlainText(s) && PlainText(t) && s + "\"" + x == t + "\"" + y
    ensures s == t && x == y
  {
    if s == [] || t == [] {
      assert (s + "\"" + x)[0] == (t + "\"" + y)[0];
      assert x == (s + "\"" + x)[1..] && y == (t + "\"" + y)[1..];
    } else {
      assert s[0] == (s + "\"" + x)[0] == (t + "\"" + y)[0] == t[0];
      assert (s + "\"" + x)[1..] == s[1..] + "\"" + x;
      assert (t + "\"" + y)[1..] == t[1..] + "\"" + y;
      QuotedIsUnique(s[1..], t[1..], x, y);
    }
  }

  lemma DigitsAreUnique(s: string, t: string, x: string, y: string)
    requires AllDigits(s) && AllDigits(t) && Follows(x) && Follows(y) && s + x == t + y
    ensures s == t && x == y
  {
    var z := s + x;
    assert |s| < |z| ==> z[|s|] == x[0];
    assert |t| < |z| ==> z[|t|] == y[0];
    assert forall i :: 0 <= i < |s| ==> z[i] == s[i];
    assert forall i :: 0 <= i < |t| ==> z[i] == t[i];
    assert |s| == |t|;
    assert s == z[..|s|] && t == z[..|t|] && x == z[|s|..] && y == z[|t|..];
  }

  lemma NumeralsAreUnique(m: nat, n: nat, x: string, y: string)
    requires Follows(x) && Follows(y) && Numeral(m) + x == Numeral(n) + y
    ensures m == n && x == y
  {
    DigitsAreUnique(Numeral(m), Numeral(n), x, y);
    NumeralRoundTrip(m);
    NumeralRoundTrip(n);
  }

  /** The first character of a text tells the kind of value. */
  function Head(j: Json): char
    requires Plain(j)
  {
    match j
    case Null => 'n'
    case Bool(b) => if b then 't' else 'f'
    case Num(_) => '0'
    case Str(_) => '"'
    case Obj(_) => '{'
  }

  lemma HeadIsFirst(j: Json)
    requires Plain(j)
    ensures Stringify(j) != ""
    ensures if j.Num? then IsDigit(Stringify(j)[0]) else Stringify(j)[0] == Head(j)
  {
  }

  /** A text has one value: two plain values written out, each followed by something that is no
      digit, give the same characters only if they are the same value. */
  lemma {:induction false} TextIsUnique(a: Json, b: Json, x: string, y: string)
    requires Plain(a) && Plain(b) && Follows(x) && Follows(y)
    requires Stringify(a) + x == Stringify(b) + y
    ensures a == b && x == y
    decreases a
  {
    HeadIsFirst(a);
    HeadIsFirst(b);
    assert (Stringify(a) + x)[0] == Stringify(a)[0] && (Stringify(b) + y)[0] == Stringify(b)[0];
    match a
    case Null => Tails("null", x, y);
    case Bool(v) => Tails(if v then "true" else "false", x, y);
    case Num(n) => NumeralsAreUnique(n, b.n, x, y);
    case Str(s) =>
      assert Stringify(a) + x == "\"" + (s + "\"" + x) && Stringify(b) + y == "\"" + (b.s + "\"" + y);
      Tails("\"", s + "\"" + x, b.s + "\"" + y);
      QuotedIsUnique(s, b.s, x, y);
    case Obj(ms) =>
      OpensClosed(ms, x);
      OpensClosed(b.members, y);
      Tails("{", Closed(ms, x), Closed(b.members, y));
      MembersAreUnique(ms, b.members, x, y);
  }

  lemma Tails(s: string, x: string, y: string)
    requires s + x == s + y
    ensures x == y
  {
    assert x == (s + x)[|s|..] && y == (s + y)[|s|..];
  }

  function After(rest: Members): string {
    if rest.End? then "" else "," + StringifyMembers(rest)
  }

  /** The text of some members, closed and followed by `x`. */
  function Closed(ms: Members, x: string): (r: string)
    ensures r != "" && r[0] == if ms.End? then '}' else '"'
  {
    StringifyMembers(ms) + "}" + x
  }

  function Ending(rest: Members, x: string): (r: string)
    ensures r != "" && r[0] == if rest.End? then '}' else ','
    ensures Follows(r)
  {
    After(rest) + "}" + x
  }

  lemma OpensClosed(ms: Members, x: string)
    ensures Stringify(Obj(ms)) + x == "{" + Closed(ms, x)
  {
    assert "{" + StringifyMembers(ms) + "}" + x == "{" + (StringifyMembers(ms) + "}" + x);
  }

  lemma Associate(a: string, b: string, c: string)
    ensures a + b + c == a + (b + c)
  {
  }

  lemma Reassociate(q: string, k: string, c: string, v: string, e: string, x: string)
    ensures q + k + (q + c) + v + e + x == q + (k + q + (c + (v + (e + x))))
  {
    Associate(q + k + (q + c) + v, e, x);
    Associate(q + k + (q + c), v, e + x);
    Associate(q + k, q + c, v + (e + x));
    Associate(q, c, v + (e + x));
    Associate(q, k, q + (c + (v + (e + x))));
    Associate(k, q, c + (v + (e + x)));
  }

  lemma ClosedMember(ms: Members, x: string)
    requires ms.Member?
    ensures Closed(ms, x) == "\"" + (ms.key + "\"" + (":" + (Stringify(ms.value) + Ending(ms.rest, x))))
  {
    var v, e := Stringify(ms.value), After(ms.rest);
    assert "\":" == "\"" + ":";
    assert StringifyMembers(ms) == "\"" + ms.key + ("\"" + ":") + v + e;
    Associate("\"" + ms.key + ("\"" + ":") + v + e, "}", x);
    Reassociate("\"", ms.key, ":", v, e, "}" + x);
    Associate(e, "}", x);
  }

  lemma EndingMember(rest: Members, x: string)
    ensures Ending(rest, x) == if rest.End? then "}" + x else "," + Closed(rest, x)
  {
    if rest.Member? {
      assert "," + StringifyMembers(rest) + "}" + x == "," + (StringifyMembers(rest) + "}" + x);
    }
  }

  lemma {:induction false} MembersAreUnique(a: Members, b: Members, x: string, y: string)
    requires PlainMembers(a) && PlainMembers(b) && Closed(a, x) == Closed(b, y)
    ensures a == b && x == y
    decreases a, 0
  {
    assert a.End? == b.End? by {
      assert Closed(a, x)[0] == Closed(b, y)[0];
    }
    if a.End? {
      assert "" + "}" + x == "}" + x && "" + "}" + y == "}" + y;
      Tails("}", x, y);
    } else {
      ClosedMember(a, x);
      ClosedMember(b, y);
      var va, vb := Stringify(a.value) + Ending(a.rest, x), Stringify(b.value) + Ending(b.rest, y);
      Tails("\"", a.key + "\"" + (":" + va), b.key + "\"" + (":" + vb));
      QuotedIsUnique(a.key, b.key, ":" + va, ":" + vb);
      Tails(":", va, vb);
      TextIsUnique(a.value, b.value, Ending(a.rest, x), Ending(b.rest, y));
      RestIsUnique(a.rest, b.rest, x, y);
    }
  }

  lemma {:induction false} RestIsUnique(a: Members, b: Members, x: string, y: string)
    requires PlainMembers(a) && PlainMembers(b) && Ending(a, x) == Ending(b, y)
    ensures a == b && x == y
    decreases a, 1
  {
    assert a.End? == b.End? by {
      assert Ending(a, x)[0] == Ending(b, y)[0];
    }
    EndingMember(a, x);
    EndingMember(b, y);
    if a.End? {
      Tails("}", x, y);
    } else {
      Tails(",", Closed(a, x), Closed(b, y));
      MembersAreUnique(a, b, x, y);
    }
  }

  /** JSON.stringify loses nothing. */
  lemma StringifyIsInjective(a: Json, b: Json)
    requires Plain(a) && Plain(b) && Stringify(a) == Stringify(b)
    ensures a == b
  {
    assert Stringify(a) + "" == Stringify(a) && Stringify(b) + "" == Stringify(b);
    TextIsUnique(a, b, "", "");
  }

  // ---------------------------------------------------------------- reading back

  /** What the model asks of JSON.parse: it reads back what JSON.stringify wrote. What it makes of
      any other text is left open. */
  ghost predicate ReadsBack(parse: string -> Option<Json>) {
    forall j :: Plain(j) ==> parse(Stringify(j)) == Some(j)
  }

  ghost function Inverse(text: string): Option<Json> {
    if exists j :: Plain(j) && Stringify(j) == text
    then
      var j :| Plain(j) && Stringify(j) == text;
      Some(j)
    else None
  }

  /** Such a parser exists, because no two values have the same text. */
  lemma AParserReadsBack()
    ensures exists parse: string -> Option<Json> :: ReadsBack(parse)
  {
    var parse: string -> Option<Json> := text => Inverse(text);
    forall j | Plain(j) ensures parse(Stringify(j)) == Some(j) {
      var k := Inverse(Stringify(j)).value;
      StringifyIsInjective(j, k);
    }
    assert ReadsBack(parse);
  }
}
