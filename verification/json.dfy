/** The CLI's JSON output encoder: the `to_json` family of overloads, the
    array joiner `to_json_arr` and the two object builders `to_json_obj`.
    Every encoder produces a plain string that is written verbatim. */
module Json {

  datatype Option<T> = None | Some(value: T)

  // ---------------------------------------------------------------------
  // Decimal numbers (std::to_string on integers)
  // ---------------------------------------------------------------------

  predicate IsDigit(c: char) { '0' <= c <= '9' }

  predicate AllDigits(s: string) { forall i :: 0 <= i < |s| ==> IsDigit(s[i]) }

  function DigitChar(d: nat): (c: char)
    requires d < 10
    ensures IsDigit(c) && c as int - '0' as int == d
  {
    ('0' as int + d) as char
  }

  /** Decimal form of a natural number, most significant digit first, without
      leading zeros. */
  function NatToDecimal(n: nat): (s: string)
    ensures |s| >= 1 && AllDigits(s)
    ensures (s[0] == '0') == (n == 0)
    decreases n
  {
    if n < 10 then [DigitChar(n)] else NatToDecimal(n / 10) + [DigitChar(n % 10)]
  }

  /** The value a string of decimal digits denotes. */
  function DigitsValue(s: string): nat
    requires AllDigits(s)
  {
    if s == [] then 0
    else DigitsValue(s[..|s| - 1]) * 10 + (s[|s| - 1] as int - '0' as int)
  }

  lemma {:induction false} NatToDecimalRoundTrip(n: nat)
    ensures DigitsValue(NatToDecimal(n)) == n
    decreases n
  {
    if n >= 10 {
      var s := NatToDecimal(n);
      assert s[..|s| - 1] == NatToDecimal(n / 10);
      NatToDecimalRoundTrip(n / 10);
    }
  }

  lemma NatToDecimalInjective(a: nat, b: nat)
    ensures NatToDecimal(a) == NatToDecimal(b) ==> a == b
  {
    NatToDecimalRoundTrip(a);
    NatToDecimalRoundTrip(b);
  }

  /** std::to_string on a signed integer: a minus sign, then the digits of the
      magnitude. */
  function IntToDecimal(i: int): (s: string)
    ensures |s| >= 1
    ensures (s[0] == '-') == (i < 0)
  {
    if i < 0 then "-" + NatToDecimal(-i) else NatToDecimal(i)
  }

  /** Reads back what IntToDecimal writes: an optional '-' followed by a
      non-empty run of digits. */
  function ParseInt(s: string): Option<int> {
    if |s| >= 2 && s[0] == '-' && AllDigits(s[1..]) then Some(0 - DigitsValue(s[1..]) as int)
    else if |s| >= 1 && AllDigits(s) then Some(DigitsValue(s))
    else None
  }

  lemma IntToDecimalRoundTrip(i: int)
    ensures ParseInt(IntToDecimal(i)) == Some(i)
  {
    var s := IntToDecimal(i);
    if i < 0 {
      var d := NatToDecimal(-i);
      assert s[0] == '-' && s[1..] == d;
      NatToDecimalRoundTrip(-i);
      assert ParseInt(s) == Some(0 - DigitsValue(d));
    } else {
      assert !(s[0] == '-') by { assert IsDigit(s[0]); }
      NatToDecimalRoundTrip(i);
    }
  }

  // ---------------------------------------------------------------------
  // Strings (to_json on std::string)
  // ---------------------------------------------------------------------

  /** boost::replace_all with a one-character pattern: every occurrence of `c`
      is replaced by `rep`, scanning left to right; replacements are not
      rescanned. */
  function ReplaceAll(s: string, c: char, rep: string): string {
    if s == [] then "" else (if s[0] == c then rep else [s[0]]) + ReplaceAll(s[1..], c, rep)
  }

  lemma {:induction false} ReplaceAllAppend(a: string, b: string, c: char, rep: string)
    ensures ReplaceAll(a + b, c, rep) == ReplaceAll(a, c, rep) + ReplaceAll(b, c, rep)
    decreases |a|
  {
    if a != [] {
      assert (a + b)[1..] == a[1..] + b;
      ReplaceAllAppend(a[1..], b, c, rep);
    } else {
      assert a + b == b;
    }
  }

  /** The escape of one character: a backslash or a double quote is preceded
      by a backslash, every other character (control characters included) is
      kept as it is. */
  function EscapeChar(ch: char): string {
    if ch == '\\' then "\\\\" else if ch == '"' then "\\\"" else [ch]
  }

  /** Character-by-character reference definition of the escaping. */
  function Escape(s: string): string {
    if s == [] then "" else EscapeChar(s[0]) + Escape(s[1..])
  }

  function Count(s: string, c: char): nat {
    if s == [] then 0 else (if s[0] == c then 1 else 0) + Count(s[1..], c)
  }

  /** The two in-place passes (backslashes first, then quotes) compute the
      character-by-character escape: the backslashes inserted before quotes
      are not doubled. */
  lemma {:induction false} TwoPassesAreEscape(s: string)
    ensures ReplaceAll(ReplaceAll(s, '\\', "\\\\"), '"', "\\\"") == Escape(s)
    decreases |s|
  {
    if s != [] {
      var head := if s[0] == '\\' then "\\\\" else [s[0]];
      var tail := ReplaceAll(s[1..], '\\', "\\\\");
      assert ReplaceAll(s, '\\', "\\\\") == head + tail;
      ReplaceAllAppend(head, tail, '"', "\\\"");
      assert ReplaceAll(head, '"', "\\\"") == EscapeChar(s[0]) by {
        if s[0] == '\\' {
          assert head == ['\\'] + ['\\'];
          ReplaceAllAppend(['\\'], ['\\'], '"', "\\\"");
        }
      }
      TwoPassesAreEscape(s[1..]);
    }
  }

  /** to_json on a std::string: the two replacement passes, then surrounding
      double quotes. */
  function StringToJson(s: string): (r: string)
    ensures |r| >= 2 && r[0] == '"' && r[|r| - 1] == '"'
    ensures r[1..|r| - 1] == Escape(s)
  {
    TwoPassesAreEscape(s);
    "\"" + ReplaceAll(ReplaceAll(s, '\\', "\\\\"), '"', "\\\"") + "\""
  }

  lemma {:induction false} EscapeLength(s: string)
    ensures |Escape(s)| == |s| + Count(s, '\\') + Count(s, '"')
    decreases |s|
  {
    if s != [] { EscapeLength(s[1..]); }
  }

  /** The encoding is two characters longer than its input, plus one for each
      backslash and each double quote. */
  lemma StringToJsonLength(s: string)
    ensures |StringToJson(s)| == |s| + 2 + Count(s, '\\') + Count(s, '"')
  {
    EscapeLength(s);
  }

  /** Characters other than a backslash and a double quote (control characters
      included) pass through unchanged. */
  lemma {:induction false} EscapeKeepsPlainText(s: string)
    requires forall i :: 0 <= i < |s| ==> s[i] != '\\' && s[i] != '"'
    ensures Escape(s) == s
    decreases |s|
  {
    if s != [] {
      EscapeKeepsPlainText(s[1..]);
      assert s == [s[0]] + s[1..];
    }
  }

  /** A key made of plain characters is only put between double quotes. */
  lemma PlainStringToJson(s: string)
    requires forall i :: 0 <= i < |s| ==> s[i] != '\\' && s[i] != '"'
    ensures StringToJson(s) == "\"" + s + "\""
  {
    EscapeKeepsPlainText(s);
  }

  /** Inverse of Escape: a backslash must be followed by a backslash or a
      double quote, and a bare double quote is rejected. */
  function Unescape(t: string): Option<string>
    decreases |t|
  {
    if t == [] then Some("")
    else if t[0] == '\\' then
      if |t| >= 2 && (t[1] == '\\' || t[1] == '"') then
        match Unescape(t[2..])
        case Some(rest) => Some([t[1]] + rest)
        case None => None
      else None
    else if t[0] == '"' then None
    else
      match Unescape(t[1..])
      case Some(rest) => Some([t[0]] + rest)
      case None => None
  }

  /** Decodes a JSON string literal produced by StringToJson. */
  function ParseJsonString(j: string): Option<string> {
    if |j| >= 2 && j[0] == '"' && j[|j| - 1] == '"' then Unescape(j[1..|j| - 1]) else None
  }

  lemma {:induction false} UnescapeEscape(s: string)
    ensures Unescape(Escape(s)) == Some(s)
    decreases |s|
  {
    if s != [] {
      var t := Escape(s);
      UnescapeEscape(s[1..]);
      if s[0] == '\\' || s[0] == '"' {
        assert t[0] == '\\' && t[1] == s[0] && t[2..] == Escape(s[1..]);
      } else {
        assert t[0] == s[0] && t[1..] == Escape(s[1..]);
      }
      assert s == [s[0]] + s[1..];
    }
  }

  lemma StringToJsonRoundTrip(s: string)
    ensures ParseJsonString(StringToJson(s)) == Some(s)
  {
    UnescapeEscape(s);
  }

  lemma StringToJsonInjective(a: string, b: string)
    ensures StringToJson(a) == StringToJson(b) ==> a == b
  {
    StringToJsonRoundTrip(a);
    StringToJsonRoundTrip(b);
  }

  // ---------------------------------------------------------------------
  // Arrays and objects
  // ---------------------------------------------------------------------

  /** Elements separated by ", ", with no separator after the last one. */
  function Join(parts: seq<string>): string {
    if |parts| == 0 then ""
    else if |parts| == 1 then parts[0]
    else parts[0] + ", " + Join(parts[1..])
  }

  /** Every element followed by ", ", the last one included. */
  function Terminated(parts: seq<string>): string {
    if parts == [] then "" else Terminated(parts[..|parts| - 1]) + parts[|parts| - 1] + ", "
  }

  function ArrayOf(parts: seq<string>): string {
    "[" + Join(parts) + "]"
  }

  function TotalLength(parts: seq<string>): nat {
    if parts == [] then 0 else |parts[0]| + TotalLength(parts[1..])
  }

  /** Element-wise conversion, in input order. */
  function Converted<T>(val: seq<T>, conv: T -> string): (r: seq<string>)
    ensures |r| == |val|
  {
    seq(|val|, i requires 0 <= i < |val| => conv(val[i]))
  }

  /** Joining two non-empty lists is joining each and putting one separator
      between them: elements keep their order. */
  lemma {:induction false} JoinAppend(ps: seq<string>, qs: seq<string>)
    requires |ps| >= 1 && |qs| >= 1
    ensures Join(ps + qs) == Join(ps) + ", " + Join(qs)
    decreases |ps|
  {
    if |ps| > 1 {
      assert (ps + qs)[1..] == ps[1..] + qs;
      JoinAppend(ps[1..], qs);
    } else {
      assert (ps + qs)[1..] == qs;
    }
  }

  /** Appending one element to an array puts it after the others, separated
      by ", " when there are others. */
  lemma ArrayOfAppend(ps: seq<string>, x: string)
    ensures ps == [] ==> ArrayOf(ps + [x]) == "[" + x + "]"
    ensures ps != [] ==> ArrayOf(ps + [x]) == "[" + Join(ps) + ", " + x + "]"
  {
    if ps == [] {
      assert ps + [x] == [x];
    } else {
      JoinAppend(ps, [x]);
      Regroup("[", Join(ps), ", ", x, "]");
    }
  }

  /** Solver helper: regrouping a concatenation of five pieces, stated on
      variables so that callers need not reassociate literal text. */
  lemma Regroup(a: string, b: string, c: string, d: string, e: string)
    ensures a + (b + c + d) + e == a + b + c + d + e
  {
  }

  /** Solver helper: regrouping a concatenation of seven pieces. */
  lemma RegroupSeven(a: string, b: string, c: string, d: string, e: string, f: string, g: string)
    ensures a + (b + c + d + e + f) + g == a + b + c + d + e + f + g
  {
  }

  /** Converting one more element appends its conversion. */
  lemma ConvertedAppend<T>(val: seq<T>, x: T, conv: T -> string)
    ensures Converted(val + [x], conv) == Converted(val, conv) + [conv(x)]
  {
  }

  /** n >= 1 elements are joined with exactly n - 1 separators. */
  lemma {:induction false} JoinLength(ps: seq<string>)
    requires |ps| >= 1
    ensures |Join(ps)| == TotalLength(ps) + 2 * (|ps| - 1)
    decreases |ps|
  {
    if |ps| > 1 { JoinLength(ps[1..]); }
  }

  /** The array of n >= 1 elements is "[" + the elements with n - 1 separators
      + "]"; the empty array is "[]". */
  lemma ArrayOfLength(ps: seq<string>)
    ensures |ps| == 0 ==> ArrayOf(ps) == "[]"
    ensures |ps| >= 1 ==> |ArrayOf(ps)| == TotalLength(ps) + 2 * (|ps| - 1) + 2
  {
    if |ps| >= 1 { JoinLength(ps); }
  }

  lemma {:induction false} TerminatedIsJoinThenSeparator(ps: seq<string>)
    requires |ps| >= 1
    ensures Terminated(ps) == Join(ps) + ", "
    decreases |ps|
  {
    if |ps| > 1 {
      var init := ps[..|ps| - 1];
      TerminatedIsJoinThenSeparator(init);
      JoinAppend(init, [ps[|ps| - 1]]);
      assert init + [ps[|ps| - 1]] == ps;
    } else {
      assert ps[..0] == [];
    }
  }

  /** Appending element i to the text joined so far (with the separator the
      loop put after the previous element) gives the join of the first i + 1. */
  lemma JoinStep(ps: seq<string>, i: nat)
    requires i < |ps|
    ensures Join(ps[..i + 1]) == (if i == 0 then "" else Join(ps[..i]) + ", ") + ps[i]
  {
    if i > 0 {
      assert ps[..i + 1] == ps[..i] + [ps[i]];
      JoinAppend(ps[..i], [ps[i]]);
    } else {
      assert ps[..1] == [ps[0]];
    }
  }

  lemma TerminatedStep(ps: seq<string>, i: nat)
    requires i < |ps|
    ensures Terminated(ps[..i + 1]) == Terminated(ps[..i]) + ps[i] + ", "
  {
    assert ps[..i + 1][..i] == ps[..i];
  }

  /** to_json_arr: the loop over the vector that appends each converted
      element, and ", " after every element but the last. */
  method ToJsonArr<T>(val: seq<T>, conv: T -> string) returns (r: string)
    ensures r == ArrayOf(Converted(val, conv))
  {
    ghost var parts := Converted(val, conv);
    var res := "[";
    var i := 0;
    while i < |val|
      invariant 0 <= i <= |val|
      invariant res == "[" + (if i == 0 then "" else Join(parts[..i]) + (if i == |val| then "" else ", "))
    {
      ghost var before := res;
      res := res + conv(val[i]);
      if i + 1 != |val| {
        res := res + ", ";
      }
      assert parts[..i + 1] == parts[..i] + [parts[i]];
      if i > 0 {
        JoinAppend(parts[..i], [parts[i]]);
      }
      i := i + 1;
    }
    assert parts[..|val|] == parts;
    r := res + "]";
  }

  /** The argument types `to_json` has an overload for: bool, the integer
      types (std::to_string), std::string, json_raw_string and std::vector. */
  datatype Value =
    | Bool(b: bool)
    | Int(i: int)
    | Str(s: string)
    | Raw(raw: string)
    | Vec(items: seq<Value>)

  /** Overload resolution of `to_json`: each case is the matching overload. */
  function ToJson(v: Value): (r: string)
    ensures v.Bool? ==> r == if v.b then "true" else "false"
    ensures v.Int? ==> ParseInt(r) == Some(v.i)
    ensures v.Str? ==> ParseJsonString(r) == Some(v.s)
    ensures v.Raw? ==> r == v.raw
    ensures v.Vec? ==> |r| >= 2 && r[0] == '[' && r[|r| - 1] == ']'
    decreases v
  {
    match v
    case Bool(b) => if b then "true" else "false"
    case Int(i) => IntToDecimalRoundTrip(i); IntToDecimal(i)
    case Str(s) => StringToJsonRoundTrip(s); StringToJson(s)
    case Raw(raw) => raw
    case Vec(items) => ArrayOf(seq(|items|, k requires 0 <= k < |items| => ToJson(items[k])))
  }

  /** `to_json` on a vector is `to_json_arr` with the element-wise `to_json`. */
  lemma VecIsArray(items: seq<Value>)
    ensures ToJson(Vec(items)) == ArrayOf(Converted(items, ToJson))
  {
    assert seq(|items|, k requires 0 <= k < |items| => ToJson(items[k])) == Converted(items, ToJson);
  }

  /** Solver helper: the scalar encoders, by name (one unfolding of
      `ToJson` per case). */
  lemma ToJsonScalars(i: int, s: string, raw: string)
    ensures ToJson(Int(i)) == IntToDecimal(i)
    ensures ToJson(Str(s)) == StringToJson(s)
    ensures ToJson(Raw(raw)) == raw
  {
  }

  /** One object member: the key through the string encoder, ": ", the value
      through its own encoder. */
  function Member(key: string, val: Value): (m: string)
    ensures |m| >= 4
  {
    StringToJson(key) + ": " + ToJson(val)
  }

  function Members(obj: seq<(string, Value)>): (ms: seq<string>)
    ensures |ms| == |obj|
  {
    seq(|obj|, i requires 0 <= i < |obj| => Member(obj[i].0, obj[i].1))
  }

  /** to_json_obj_rec: the variadic recursion over key/value arguments. With
      no arguments it is the empty overload, which returns "". */
  function ObjRec(args: seq<(string, Value)>): string
    decreases |args|
  {
    if |args| == 0 then ""
    else
      var ret := StringToJson(args[0].0) + ": " + ToJson(args[0].1);
      if |args| > 1 then ret + ", " + ObjRec(args[1..]) else ret + "}"
  }

  lemma {:induction false} ObjRecIsJoin(args: seq<(string, Value)>)
    ensures |args| == 0 ==> ObjRec(args) == ""
    ensures |args| >= 1 ==> ObjRec(args) == Join(Members(args)) + "}"
    decreases |args|
  {
    if |args| > 1 {
      var ms := Members(args);
      var rest := Join(ms[1..]);
      ObjRecIsJoin(args[1..]);
      assert Members(args[1..]) == ms[1..];
      assert ObjRec(args) == ms[0] + ", " + (rest + "}");
      assert Join(ms) == ms[0] + ", " + rest;
      RegroupLast(ms[0], ", ", rest, "}");
    }
  }

  /** Solver helper: regrouping the last two of four pieces. */
  lemma RegroupLast(a: string, b: string, c: string, d: string)
    ensures a + b + (c + d) == a + b + c + d
  {
  }

  /** The variadic to_json_obj(k1, v1, ..., kn, vn), n >= 1: "{", the members
      in argument order separated by ", ", and one closing "}". */
  function ToJsonObj(args: seq<(string, Value)>): (r: string)
    requires |args| >= 1
    ensures r == "{" + Join(Members(args)) + "}"
  {
    ObjRecIsJoin(args);
    "{" + ObjRec(args)
  }

  /** One iteration of the as-written loop: every member is at least four
      characters long, so the length test never matches and ", " follows. */
  lemma AsWrittenStep(ms: seq<string>, i: nat, res: string, m: string)
    requires i < |ms| && m == ms[i] && |m| >= 4
    requires res == "{" + Terminated(ms[..i]) && |res| >= i + 1
    ensures i + 1 != |res + m|
    ensures res + m + ", " == "{" + Terminated(ms[..i + 1]) && |res + m + ", "| >= i + 2
  {
    TerminatedStep(ms, i);
  }

  /** One iteration of the loop with the separator test on the pair count. */
  lemma CorrectedStep(ms: seq<string>, i: nat, res: string, m: string)
    requires i < |ms| && m == ms[i]
    requires i == 0 ==> res == "{"
    requires 0 < i ==> res == "{" + Join(ms[..i]) + ", "
    ensures i + 1 < |ms| ==> res + m + ", " == "{" + Join(ms[..i + 1]) + ", "
    ensures i + 1 == |ms| ==> res + m == "{" + Join(ms[..i + 1])
  {
    JoinStep(ms, i);
  }

  lemma JoinOfTwo(x: string, y: string)
    ensures Join([x, y]) == x + ", " + y
  {
    assert [x, y][1..] == [y];
  }

  lemma JoinOfThree(x: string, y: string, z: string)
    ensures Join([x, y, z]) == x + ", " + y + ", " + z
  {
    assert [x, y, z][1..] == [y, z];
    JoinOfTwo(y, z);
  }

  lemma ObjOfTwo(a: (string, Value), b: (string, Value))
    ensures ToJsonObj([a, b]) == "{" + Member(a.0, a.1) + ", " + Member(b.0, b.1) + "}"
  {
    var ma, mb := Member(a.0, a.1), Member(b.0, b.1);
    assert Members([a, b]) == [ma, mb];
    JoinOfTwo(ma, mb);
    Regroup("{", ma, ", ", mb, "}");
  }

  lemma ObjOfThree(a: (string, Value), b: (string, Value), c: (string, Value))
    ensures ToJsonObj([a, b, c])
         == "{" + Member(a.0, a.1) + ", " + Member(b.0, b.1) + ", " + Member(c.0, c.1) + "}"
  {
    var ma, mb, mc := Member(a.0, a.1), Member(b.0, b.1), Member(c.0, c.1);
    assert Members([a, b, c]) == [ma, mb, mc];
    JoinOfThree(ma, mb, mc);
    RegroupSeven("{", ma, ", ", mb, ", ", mc, "}");
  }

  predicate PlainKey(key: string) {
    forall i :: 0 <= i < |key| ==> key[i] != '\\' && key[i] != '"'
  }

  /** Solver helper: the two-member text with each key's quotes merged
      into the surrounding punctuation. */
  lemma TwoMembersLayout(k1: string, t1: string, k2: string, t2: string)
    ensures "{" + ("\"" + k1 + "\"" + ": " + t1) + ", " + ("\"" + k2 + "\"" + ": " + t2) + "}"
         == "{\"" + k1 + "\": " + t1 + (", \"" + k2 + "\": ") + t2 + "}"
  {
  }

  /** Solver helper: the same for three members. */
  lemma ThreeMembersLayout(k1: string, t1: string, k2: string, t2: string, k3: string, t3: string)
    ensures "{" + ("\"" + k1 + "\"" + ": " + t1) + ", " + ("\"" + k2 + "\"" + ": " + t2)
            + ", " + ("\"" + k3 + "\"" + ": " + t3) + "}"
         == "{\"" + k1 + "\": " + t1 + (", \"" + k2 + "\": ") + t2 + (", \"" + k3 + "\": ") + t3 + "}"
  {
  }

  /** An object of two members whose keys need no escaping. */
  lemma PlainObjOfTwo(k1: string, v1: Value, k2: string, v2: Value)
    requires PlainKey(k1) && PlainKey(k2)
    ensures ToJsonObj([(k1, v1), (k2, v2)])
         == "{\"" + k1 + "\": " + ToJson(v1) + (", \"" + k2 + "\": ") + ToJson(v2) + "}"
  {
    ObjOfTwo((k1, v1), (k2, v2));
    assert Member(k1, v1) == "\"" + k1 + "\"" + ": " + ToJson(v1) by { PlainStringToJson(k1); }
    assert Member(k2, v2) == "\"" + k2 + "\"" + ": " + ToJson(v2) by { PlainStringToJson(k2); }
    TwoMembersLayout(k1, ToJson(v1), k2, ToJson(v2));
  }

  /** An object of three members whose keys need no escaping. */
  lemma PlainObjOfThree(k1: string, v1: Value, k2: string, v2: Value, k3: string, v3: Value)
    requires PlainKey(k1) && PlainKey(k2) && PlainKey(k3)
    ensures ToJsonObj([(k1, v1), (k2, v2), (k3, v3)])
         == "{\"" + k1 + "\": " + ToJson(v1) + (", \"" + k2 + "\": ") + ToJson(v2)
            + (", \"" + k3 + "\": ") + ToJson(v3) + "}"
  {
    ObjOfThree((k1, v1), (k2, v2), (k3, v3));
    assert Member(k1, v1) == "\"" + k1 + "\"" + ": " + ToJson(v1) by { PlainStringToJson(k1); }
    assert Member(k2, v2) == "\"" + k2 + "\"" + ": " + ToJson(v2) by { PlainStringToJson(k2); }
    assert Member(k3, v3) == "\"" + k3 + "\"" + ": " + ToJson(v3) by { PlainStringToJson(k3); }
    ThreeMembersLayout(k1, ToJson(v1), k2, ToJson(v2), k3, ToJson(v3));
  }

  /** to_json_obj over a vector of pairs, as written: the separator test
      compares i + 1 with the length of the string built so far, so a ", " is
      appended after every member, the last one included. */
  method PairsToJsonObjAsWritten(obj: seq<(string, Value)>) returns (r: string)
    ensures r == "{" + Terminated(Members(obj)) + "}"
  {
    ghost var ms := Members(obj);
    var res := "{";
    var i := 0;
    while i < |obj|
      invariant 0 <= i <= |obj|
      invariant res == "{" + Terminated(ms[..i])
      invariant |res| >= i + 1
    {
      var m := Member(obj[i].0, obj[i].1);
      AsWrittenStep(ms, i, res, m);
      res := res + m;
      if i + 1 != |res| {
        res := res + ", ";
      }
      i := i + 1;
    }
    assert ms[..|obj|] == ms;
    r := res + "}";
  }

  /** The as-written loop leaves a trailing ", " before "}" for every
      non-empty input, so its output differs from the intended object. */
  lemma PairsAsWrittenTrailingSeparator(obj: seq<(string, Value)>)
    requires |obj| >= 1
    ensures "{" + Terminated(Members(obj)) + "}" == "{" + Join(Members(obj)) + ", }"
    ensures "{" + Terminated(Members(obj)) + "}" != ToJsonObj(obj)
  {
    var ms := Members(obj);
    var j := Join(ms);
    TerminatedIsJoinThenSeparator(ms);
    RegroupTail("{", j, ", ", "}");
    assert ", " + "}" == ", }";
  }

  /** Solver helper: regrouping the middle of four pieces. */
  lemma RegroupTail(a: string, b: string, c: string, d: string)
    ensures a + (b + c) + d == a + b + (c + d)
  {
  }

  /** to_json_obj over a vector of pairs with the separator test on the
      number of pairs: it agrees with the variadic form on every non-empty
      input and yields "{}" on the empty one. */
  method PairsToJsonObj(obj: seq<(string, Value)>) returns (r: string)
    ensures r == "{" + Join(Members(obj)) + "}"
    ensures |obj| >= 1 ==> r == ToJsonObj(obj)
  {
    ghost var ms := Members(obj);
    var res := "{";
    var i := 0;
    while i < |obj|
      invariant 0 <= i <= |obj|
      invariant i == 0 ==> res == "{"
      invariant 0 < i < |obj| ==> res == "{" + Join(ms[..i]) + ", "
      invariant 0 < i == |obj| ==> res == "{" + Join(ms[..i])
    {
      var m := Member(obj[i].0, obj[i].1);
      CorrectedStep(ms, i, res, m);
      res := res + m;
      if i + 1 != |obj| {
        res := res + ", ";
      }
      i := i + 1;
    }
    assert ms[..|obj|] == ms;
    r := res + "}";
  }
}
