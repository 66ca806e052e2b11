// The paths and the answers that cross the wire: what one half builds, the
// other takes apart.
//
// A name is the bytes of its UTF-8 text. A value is percent-encoded as section
// 2.1 of RFC 3986 has it, so it holds no slash and no brace and cannot be
// taken for a part of the template it is put into.

module Paths {
  import opened Values

  type Byte = b: int | 0 <= b < 256
  type Name = seq<Byte>

  // Strings in pieces

  predicate Lacks(s: string, c: char) { c !in s }

  function Join(segments: seq<string>): string
    requires segments != []
  {
    if |segments| == 1 then segments[0] else segments[0] + "/" + Join(segments[1..])
  }

  function Split(s: string): (segments: seq<string>)
    ensures segments != []
  {
    if s == "" then [""]
    else
      var rest := Split(s[1..]);
      if s[0] == '/' then [""] + rest else [[s[0]] + rest[0]] + rest[1..]
  }

  lemma {:induction false} SplitApart(s: string, t: string)
    requires Lacks(s, '/')
    ensures Split(s) == [s]
    ensures Split(s + "/" + t) == [s] + Split(t)
  {
    if s == "" {
      assert ("" + "/" + t)[1..] == t;
    } else {
      SplitApart(s[1..], t);
      assert (s + "/" + t)[1..] == s[1..] + "/" + t;
      assert [s[0]] + s[1..] == s;
    }
  }

  lemma {:induction false} SplitJoin(segments: seq<string>)
    requires segments != [] && forall i :: 0 <= i < |segments| ==> Lacks(segments[i], '/')
    ensures Split(Join(segments)) == segments
  {
    SplitApart(segments[0], "");
    if |segments| > 1 {
      SplitJoin(segments[1..]);
      SplitApart(segments[0], Join(segments[1..]));
    }
  }

  predicate Contains(s: string, mark: string) { |mark| <= |s| && (mark <= s || Contains(s[1..], mark)) }

  // Every occurrence, from the left.
  function Replace(s: string, mark: string, by_: string): string
    requires mark != ""
    decreases |s|
  {
    if |s| < |mark| then s
    else if mark <= s then by_ + Replace(s[|mark|..], mark, by_)
    else [s[0]] + Replace(s[1..], mark, by_)
  }

  lemma StartsApart(s: string, t: string, mark: string)
    requires Lacks(mark, '/')
    ensures mark <= s + "/" + t <==> mark <= s
  {
    var all := s + "/" + t;
    if |s| < |mark| <= |all| {
      assert mark[|s|] != all[|s|];
    } else if |mark| <= |s| {
      assert all[..|mark|] == s[..|mark|];
    }
  }

  // A mark without a slash is found within segments and nowhere across them.
  lemma {:induction false} ReplaceApart(s: string, t: string, mark: string, by_: string)
    requires mark != "" && Lacks(mark, '/')
    ensures Replace(s + "/" + t, mark, by_) == Replace(s, mark, by_) + "/" + Replace(t, mark, by_)
    decreases |s|
  {
    var all := s + "/" + t;
    StartsApart(s, t, mark);
    if s == "" {
      assert all[1..] == t;
      ShortStays(all, mark, by_);
    } else if mark <= s {
      ReplaceApart(s[|mark|..], t, mark, by_);
      assert all[|mark|..] == s[|mark|..] + "/" + t;
      Associates(by_, Replace(s[|mark|..], mark, by_), Replace(t, mark, by_));
    } else {
      ReplaceApart(s[1..], t, mark, by_);
      assert all[1..] == s[1..] + "/" + t;
      ShortStays(s, mark, by_);
      ShortStays(all, mark, by_);
      Associates([s[0]], Replace(s[1..], mark, by_), Replace(t, mark, by_));
    }
  }

  lemma Associates(a: string, b: string, c: string)
    ensures a + (b + "/" + c) == (a + b) + "/" + c
  {
  }

  lemma {:induction false} ContainsApart(s: string, t: string, mark: string)
    requires mark != "" && Lacks(mark, '/')
    ensures Contains(s + "/" + t, mark) <==> Contains(s, mark) || Contains(t, mark)
    decreases |s|
  {
    var all := s + "/" + t;
    StartsApart(s, t, mark);
    if s == "" {
      assert all[1..] == t;
      ShortStays(all, mark, "");
    } else if !(mark <= s) {
      ContainsApart(s[1..], t, mark);
      assert all[1..] == s[1..] + "/" + t;
      ShortStays(s, mark, "");
      ShortStays(all, mark, "");
    }
  }

  // Where the mark does not start, the first character stays.
  lemma {:induction false} ShortStays(s: string, mark: string, by_: string)
    requires mark != "" && s != "" && !(mark <= s)
    ensures Replace(s, mark, by_) == [s[0]] + Replace(s[1..], mark, by_)
    ensures Contains(s, mark) <==> Contains(s[1..], mark)
  {
    if |s| < |mark| { assert [s[0]] + s[1..] == s; }
  }

  // Percent-encoding

  const HEX := "0123456789ABCDEF"

  function HexValue(c: char): Option<nat> {
    if '0' <= c <= '9' then Some((c - '0') as nat)
    else if 'A' <= c <= 'F' then Some((c - 'A') as nat + 10)
    else if 'a' <= c <= 'f' then Some((c - 'a') as nat + 10)
    else None
  }

  predicate Unreserved(b: Byte) {
    var c := b as char;
    'a' <= c <= 'z' || 'A' <= c <= 'Z' || '0' <= c <= '9' || c == '_' || c == '.' || c == '-' || c == '~'
  }

  function QuoteByte(b: Byte): string {
    if Unreserved(b) then [b as char] else ['%', HEX[b / 16], HEX[b % 16]]
  }

  function Quote(name: Name): string { if name == [] then "" else QuoteByte(name[0]) + Quote(name[1..]) }

  // An escape is read wherever one stands; anything else stands for itself.
  // A path is ASCII, and a character past one byte is not part of this model.
  function Unquote(s: string): Name {
    if s == "" then []
    else if s[0] == '%' && |s| >= 3 && HexValue(s[1]).Some? && HexValue(s[2]).Some? then
      [ByteOf(HexValue(s[1]).value, HexValue(s[2]).value)] + Unquote(s[3..])
    else [if s[0] as int < 256 then s[0] as int else 63] + Unquote(s[1..])
  }

  function ByteOf(high: nat, low: nat): Byte {
    if high < 16 && low < 16 then high * 16 + low else 0
  }

  lemma HexReads(n: nat)
    requires n < 16
    ensures HexValue(HEX[n]) == Some(n)
    ensures HEX[n] != '/' && HEX[n] != '{' && HEX[n] != '}'
  {
  }

  lemma {:induction false} UnquoteEscape(high: nat, low: nat, rest: string)
    requires high < 16 && low < 16
    ensures Unquote(['%', HEX[high], HEX[low]] + rest) == [high * 16 + low] + Unquote(rest)
  {
    HexReads(high);
    HexReads(low);
    hide HexValue;
    assert (['%', HEX[high], HEX[low]] + rest)[3..] == rest;
  }

  lemma {:induction false} UnquoteByte(b: Byte, rest: string)
    ensures Unquote(QuoteByte(b) + rest) == [b] + Unquote(rest)
  {
    if Unreserved(b) {
      assert ([b as char] + rest)[1..] == rest;
    } else {
      UnquoteEscape(b / 16, b % 16, rest);
    }
  }

  lemma {:induction false} UnquoteQuote(name: Name)
    ensures Unquote(Quote(name)) == name
  {
    if name != [] {
      UnquoteQuote(name[1..]);
      UnquoteByte(name[0], Quote(name[1..]));
    }
  }

  lemma {:induction false} QuoteIsPlain(name: Name)
    ensures Lacks(Quote(name), '/') && Lacks(Quote(name), '{') && Lacks(Quote(name), '}')
    ensures Quote(name) == "" <==> name == []
  {
    if name != [] {
      QuoteIsPlain(name[1..]);
      HexReads(name[0] / 16);
      HexReads(name[0] % 16);
    }
  }

  // Operations

  datatype Method = Get | Post | Put
  datatype Segment = Literal(text: string) | Variable(name: string)
  datatype Operation = Operation(name: string, http: Method, template: string)

  function Marker(name: string): string { "{" + name + "}" }

  function Text(segment: Segment): string {
    match segment
    case Literal(text) => text
    case Variable(name) => Marker(name)
  }

  function Texts(segments: seq<Segment>): (texts: seq<string>)
    ensures |texts| == |segments|
  {
    seq(|segments|, i requires 0 <= i < |segments| => Text(segments[i]))
  }

  predicate Plain(s: string) { Lacks(s, '/') && Lacks(s, '{') && Lacks(s, '}') }

  ghost predicate Parsed(op: Operation, segments: seq<Segment>) {
    && segments != [] && op.template == Join(Texts(segments))
    && (forall i :: 0 <= i < |segments| ==> SegmentOk(segments[i]))
    && (forall i, j :: 0 <= i < j < |segments| && segments[i].Variable? ==> segments[i] != segments[j])
  }

  predicate SegmentOk(segment: Segment) {
    match segment
    case Literal(text) => Plain(text)
    case Variable(name) => Plain(name)
  }

  type Binding = map<string, Name>

  function FillOne(segment: Segment, bound: Binding): string {
    if segment.Variable? && segment.name in bound then Quote(bound[segment.name]) else Text(segment)
  }

  function Fill(segments: seq<Segment>, bound: Binding): (filled: seq<string>)
    ensures |filled| == |segments|
  {
    seq(|segments|, i requires 0 <= i < |segments| => FillOne(segments[i], bound))
  }

  // Filling a template

  lemma {:induction false} PlainKeeps(s: string, name: string, by_: string)
    requires Lacks(s, '{')
    ensures !Contains(s, Marker(name)) && Replace(s, Marker(name), by_) == s
  {
    if s != "" {
      assert Marker(name)[0] == '{';
      PlainKeeps(s[1..], name, by_);
      ShortStays(s, Marker(name), by_);
      assert [s[0]] + s[1..] == s;
    }
  }

  lemma {:induction false} MarkerOther(name: string, other: string, by_: string)
    requires Plain(name) && Plain(other) && name != other
    ensures !Contains(Marker(other), Marker(name)) && Replace(Marker(other), Marker(name), by_) == Marker(other)
  {
    var s, mark := Marker(other), Marker(name);
    if |mark| < |s| {
      assert mark[|mark| - 1] == '}' && s[|mark| - 1] == other[|mark| - 2];
    } else if |mark| == |s| {
      var j :| 0 <= j < |name| && name[j] != other[j];
      assert mark[j + 1] != s[j + 1];
    }
    assert s[1..] == other + "}";
    PlainKeeps(s[1..], name, by_);
    ShortStays(s, mark, by_);
  }

  lemma {:induction false} MarkerSame(name: string, by_: string)
    ensures Contains(Marker(name), Marker(name)) && Replace(Marker(name), Marker(name), by_) == by_
  {
    assert Marker(name)[|Marker(name)|..] == "";
    assert by_ + "" == by_;
  }

  // One variable put into one segment.
  lemma {:induction false} SegmentFilled(segment: Segment, bound: Binding, name: string, value: Name)
    requires SegmentOk(segment) && Plain(name) && name !in bound
    ensures Replace(FillOne(segment, bound), Marker(name), Quote(value)) == FillOne(segment, bound[name := value])
    ensures Contains(FillOne(segment, bound), Marker(name)) <==> segment == Variable(name)
    ensures Lacks(FillOne(segment, bound), '/')
  {
    match segment {
      case Literal(text) => PlainKeeps(text, name, Quote(value));
      case Variable(other) =>
        if other in bound {
          QuoteIsPlain(bound[other]);
          PlainKeeps(Quote(bound[other]), name, Quote(value));
        } else if other == name {
          MarkerSame(name, Quote(value));
        } else {
          MarkerOther(name, other, Quote(value));
        }
    }
  }

  lemma {:induction false} TemplateFilled(segments: seq<Segment>, bound: Binding, name: string, value: Name)
    requires segments != [] && forall i :: 0 <= i < |segments| ==> SegmentOk(segments[i])
    requires Plain(name) && name !in bound
    ensures Replace(Join(Fill(segments, bound)), Marker(name), Quote(value)) == Join(Fill(segments, bound[name := value]))
    ensures Contains(Join(Fill(segments, bound)), Marker(name)) <==> Variable(name) in segments
  {
    SegmentFilled(segments[0], bound, name, value);
    FillFirst(segments, bound);
    FillFirst(segments, bound[name := value]);
    if |segments| > 1 {
      TemplateFilled(segments[1..], bound, name, value);
      hide Join, Fill, Replace, Contains;
      var head, rest := FillOne(segments[0], bound), Join(Fill(segments[1..], bound));
      ReplaceApart(head, rest, Marker(name), Quote(value));
      ContainsApart(head, rest, Marker(name));
      assert segments == [segments[0]] + segments[1..];
    }
  }

  lemma FillFirst(segments: seq<Segment>, bound: Binding)
    requires segments != []
    ensures Join(Fill(segments, bound)) ==
            if |segments| == 1 then FillOne(segments[0], bound)
            else FillOne(segments[0], bound) + "/" + Join(Fill(segments[1..], bound))
  {
    if |segments| > 1 { assert Fill(segments, bound)[1..] == Fill(segments[1..], bound); }
  }

  // A brace is left exactly where a variable is.
  lemma {:induction false} BracesLeft(segments: seq<Segment>, bound: Binding)
    requires segments != [] && forall i :: 0 <= i < |segments| ==> SegmentOk(segments[i])
    ensures '{' in Join(Fill(segments, bound)) <==>
            exists i :: 0 <= i < |segments| && segments[i].Variable? && segments[i].name !in bound
  {
    FillFirst(segments, bound);
    var first := segments[0];
    if first.Variable? {
      if first.name in bound { QuoteIsPlain(bound[first.name]); } else { assert Marker(first.name)[0] == '{'; }
    }
    assert '{' in FillOne(first, bound) <==> first.Variable? && first.name !in bound;
    if |segments| > 1 {
      BracesLeft(segments[1..], bound);
      assert segments == [first] + segments[1..];
    }
  }

  datatype PathBuilt = Built(path: string) | TakesNo(name: string) | Needs

  // The variables a call names, with their values, as one binding.
  function Bind(names: seq<string>, values: seq<Name>): Binding
    requires |names| == |values|
  {
    if names == [] then map[]
    else
      var n := |names| - 1;
      Bind(names[..n], values[..n])[names[n] := values[n]]
  }

  lemma {:induction false} BindKeys(names: seq<string>, values: seq<Name>)
    requires |names| == |values|
    ensures forall n :: n in Bind(names, values) <==> n in names
  {
    if names != [] {
      var k := |names| - 1;
      BindKeys(names[..k], values[..k]);
      assert names == names[..k] + [names[k]];
    }
  }

  lemma {:induction false} BindValues(names: seq<string>, values: seq<Name>)
    requires |names| == |values| && forall i :: 0 <= i < |values| ==> values[i] != []
    ensures forall n :: n in Bind(names, values) ==> Bind(names, values)[n] != []
  {
    if names != [] {
      BindValues(names[..|names| - 1], values[..|names| - 1]);
    }
  }

  // The path for these variables, put into the template one after another.
  method Path(op: Operation, names: seq<string>, values: seq<Name>, ghost segments: seq<Segment>) returns (built: PathBuilt)
    requires Parsed(op, segments) && |names| == |values|
    requires forall n :: n in names ==> Plain(n)
    requires forall i, j :: 0 <= i < j < |names| ==> names[i] != names[j]
    ensures built.TakesNo? <==> exists n :: n in names && Variable(n) !in segments
    ensures built.TakesNo? ==> built.name in names && Variable(built.name) !in segments
    ensures built.Needs? ==> exists segment :: segment in segments && segment.Variable? && segment.name !in names
    ensures built.Built? ==>
              && built.path == Join(Fill(segments, Bind(names, values)))
              && forall segment :: segment in segments && segment.Variable? ==> segment.name in names
  {
    hide Join, Fill, Replace, Contains;
    var filled := op.template;
    assert Fill(segments, map[]) == Texts(segments) by { FillNothing(segments); }
    var i := 0;
    while i < |names|
      invariant 0 <= i <= |names|
      invariant filled == Join(Fill(segments, Bind(names[..i], values[..i])))
      invariant forall j :: 0 <= j < i ==> Variable(names[j]) in segments
    {
      BindKeys(names[..i], values[..i]);
      assert names[..i + 1][..i] == names[..i] && values[..i + 1][..i] == values[..i];
      assert names[i] in names && names[i] !in names[..i];
      TemplateFilled(segments, Bind(names[..i], values[..i]), names[i], values[i]);
      if !Contains(filled, Marker(names[i])) {
        return TakesNo(names[i]);
      }
      filled := Replace(filled, Marker(names[i]), Quote(values[i]));
      i := i + 1;
    }
    assert names[..i] == names && values[..i] == values;
    BindKeys(names, values);
    BracesLeft(segments, Bind(names, values));
    if '{' in filled {
      return Needs;
    }
    return Built(filled);
  }

  lemma FillNothing(segments: seq<Segment>)
    ensures Fill(segments, map[]) == Texts(segments)
  {
  }

  // Matching a path

  predicate IsVariable(text: string) { |text| >= 2 && text[0] == '{' && text[|text| - 1] == '}' }

  function MatchOne(expected: string, actual: string, found: Binding): Option<Binding> {
    if IsVariable(expected) then
      if actual == "" then None else Some(found[expected[1..|expected| - 1] := Unquote(actual)])
    else if expected != actual then None
    else Some(found)
  }

  function MatchFirst(wanted: seq<string>, given: seq<string>, k: nat): Option<Binding>
    requires k <= |wanted| && k <= |given|
  {
    if k == 0 then Some(map[])
    else
      match MatchFirst(wanted, given, k - 1)
      case None => None
      case Some(found) => MatchOne(wanted[k - 1], given[k - 1], found)
  }

  function Matches(template: string, path: string): Option<Binding> {
    var wanted, given := Split(template), Split(path);
    if |wanted| != |given| then None else MatchFirst(wanted, given, |wanted|)
  }

  method Match(template: string, path: string) returns (found: Option<Binding>)
    ensures found == Matches(template, path)
  {
    var wanted, given := Split(template), Split(path);
    if |wanted| != |given| {
      return None;
    }
    var variables: Binding := map[];
    var i := 0;
    while i < |wanted|
      invariant 0 <= i <= |wanted|
      invariant MatchFirst(wanted, given, i) == Some(variables)
    {
      if IsVariable(wanted[i]) {
        if given[i] == "" {
          NoneStays(wanted, given, i + 1, |wanted|);
          return None;
        }
        variables := variables[wanted[i][1..|wanted[i]| - 1] := Unquote(given[i])];
      } else if wanted[i] != given[i] {
        NoneStays(wanted, given, i + 1, |wanted|);
        return None;
      }
      i := i + 1;
    }
    return Some(variables);
  }

  lemma {:induction false} NoneStays(wanted: seq<string>, given: seq<string>, k: nat, n: nat)
    requires k <= n <= |wanted| && n <= |given| && MatchFirst(wanted, given, k).None?
    ensures MatchFirst(wanted, given, n).None?
  {
    if k < n { NoneStays(wanted, given, k, n - 1); }
  }

  // What the first segments of a template bind.
  function Restricted(segments: seq<Segment>, bound: Binding, k: nat): Binding
    requires k <= |segments|
  {
    map n | n in bound && Variable(n) in segments[..k] :: bound[n]
  }

  ghost predicate AnyEmpty(segments: seq<Segment>, bound: Binding, k: nat)
    requires k <= |segments|
  {
    exists i :: 0 <= i < k && segments[i].Variable? && segments[i].name in bound && bound[segments[i].name] == []
  }

  lemma {:induction false} MatchesFilled(segments: seq<Segment>, bound: Binding, k: nat)
    requires k <= |segments| && forall i :: 0 <= i < |segments| ==> SegmentOk(segments[i])
    requires forall i :: 0 <= i < |segments| && segments[i].Variable? ==> segments[i].name in bound
    ensures MatchFirst(Texts(segments), Fill(segments, bound), k) ==
            if AnyEmpty(segments, bound, k) then None else Some(Restricted(segments, bound, k))
  {
    hide AnyEmpty, Restricted, MatchOne, FillOne, Text, SegmentOk, Texts, Fill;
    if k == 0 {
      NothingMatched(segments, bound);
    } else {
      var segment, found := segments[k - 1], Restricted(segments, bound, k - 1);
      MatchesFilled(segments, bound, k - 1);
      SegmentMatches(segment, bound, found);
      RestrictedMore(segments, bound, k);
      AnyEmptyMore(segments, bound, k);
      FilledAt(segments, bound, k - 1);
    }
  }

  lemma NothingMatched(segments: seq<Segment>, bound: Binding)
    ensures Restricted(segments, bound, 0) == map[] && !AnyEmpty(segments, bound, 0)
  {
  }

  lemma FilledAt(segments: seq<Segment>, bound: Binding, i: nat)
    requires i < |segments|
    ensures Texts(segments)[i] == Text(segments[i]) && Fill(segments, bound)[i] == FillOne(segments[i], bound)
  {
  }

  lemma AnyEmptyMore(segments: seq<Segment>, bound: Binding, k: nat)
    requires 0 < k <= |segments| && (segments[k - 1].Variable? ==> segments[k - 1].name in bound)
    ensures AnyEmpty(segments, bound, k) <==>
            AnyEmpty(segments, bound, k - 1) || (segments[k - 1].Variable? && bound[segments[k - 1].name] == [])
  {
  }

  lemma RestrictedMore(segments: seq<Segment>, bound: Binding, k: nat)
    requires 0 < k <= |segments| && (segments[k - 1].Variable? ==> segments[k - 1].name in bound)
    ensures Restricted(segments, bound, k) ==
            if segments[k - 1].Literal? then Restricted(segments, bound, k - 1)
            else Restricted(segments, bound, k - 1)[segments[k - 1].name := bound[segments[k - 1].name]]
  {
    assert segments[..k] == segments[..k - 1] + [segments[k - 1]];
  }

  lemma SegmentMatches(segment: Segment, bound: Binding, found: Binding)
    requires SegmentOk(segment) && (segment.Variable? ==> segment.name in bound)
    ensures MatchOne(Text(segment), FillOne(segment, bound), found) ==
            if segment.Literal? then Some(found)
            else if bound[segment.name] == [] then None
            else Some(found[segment.name := bound[segment.name]])
  {
    if segment.Variable? {
      var text := Marker(segment.name);
      assert IsVariable(text) && text[1..|text| - 1] == segment.name;
      QuoteIsPlain(bound[segment.name]);
      UnquoteQuote(bound[segment.name]);
    }
  }

  // A path built from a template and matched against it gives its variables
  // back exactly when none of them is empty; with an empty one it does not
  // match at all.
  lemma BuiltMatchesIff(op: Operation, segments: seq<Segment>, bound: Binding)
    requires Parsed(op, segments)
    requires forall n :: n in bound <==> Variable(n) in segments
    ensures Matches(op.template, Join(Fill(segments, bound))) ==
            if exists n :: n in bound && bound[n] == [] then None else Some(bound)
  {
    SplitsTemplate(op, segments);
    SplitsFilled(segments, bound);
    hide Join, Split, Fill, Texts;
    MatchesFilled(segments, bound, |segments|);
    assert segments[..|segments|] == segments;
    assert Restricted(segments, bound, |segments|) == bound;
    AnyEmptyIff(segments, bound);
  }

  lemma AnyEmptyIff(segments: seq<Segment>, bound: Binding)
    requires forall n :: n in bound <==> Variable(n) in segments
    ensures AnyEmpty(segments, bound, |segments|) <==> exists n :: n in bound && bound[n] == []
  {
    if n :| n in bound && bound[n] == [] {
      assert Variable(n) in segments;
    }
    if AnyEmpty(segments, bound, |segments|) {
      var i :| 0 <= i < |segments| && segments[i].Variable? && segments[i].name in bound && bound[segments[i].name] == [];
      assert bound[segments[i].name] == [];
    }
  }

  lemma SplitsTemplate(op: Operation, segments: seq<Segment>)
    requires Parsed(op, segments)
    ensures Split(op.template) == Texts(segments) && |Texts(segments)| == |segments|
  {
    forall i | 0 <= i < |segments| ensures Lacks(Texts(segments)[i], '/') { assert SegmentOk(segments[i]); }
    SplitJoin(Texts(segments));
  }

  lemma SplitsFilled(segments: seq<Segment>, bound: Binding)
    requires segments != [] && forall i :: 0 <= i < |segments| ==> SegmentOk(segments[i])
    ensures Split(Join(Fill(segments, bound))) == Fill(segments, bound) && |Fill(segments, bound)| == |segments|
  {
    forall i | 0 <= i < |segments| ensures Lacks(Fill(segments, bound)[i], '/') {
      if segments[i].Variable? && segments[i].name in bound { QuoteIsPlain(bound[segments[i].name]); }
    }
    SplitJoin(Fill(segments, bound));
  }

  // The operations

  // "/boards/{board_id}/regions" and its like.
  function OfBoard(word: string): string { "/" + ("boards" + "/" + (Marker("board_id") + "/" + word)) }

  // "/boards/{board_id}/levels/{level}" and its like.
  function OfRegion(word: string, name: string): string {
    "/" + ("boards" + "/" + (Marker("board_id") + "/" + (word + "/" + Marker(name))))
  }

  const OPERATIONS: seq<Operation> := [
    Operation("read_regions", Get, OfBoard("regions")),
    Operation("read_level", Get, OfRegion("levels", "level")),
    Operation("read_premise", Get, OfRegion("premises", "premise")),
    Operation("read_board", Get, OfBoard("changes")),
    Operation("write", Post, OfRegion("levels", "level")),
    Operation("set_premise", Put, OfRegion("premises", "premise")),
    Operation("ack", Post, OfBoard("acknowledgements"))]

  function WordOf(i: nat): string {
    match i
    case 0 => "regions"
    case 1 => "levels"
    case 2 => "premises"
    case 3 => "changes"
    case 4 => "levels"
    case 5 => "premises"
    case _ => "acknowledgements"
  }

  function RegionOf(i: nat): Option<string> {
    if i == 1 || i == 4 then Some("level") else if i == 2 || i == 5 then Some("premise") else None
  }

  function SegmentsOf(i: nat): (segments: seq<Segment>)
    ensures |segments| == if RegionOf(i).Some? then 5 else 4
    ensures segments[3] == Literal(WordOf(i))
  {
    var board := [Literal(""), Literal("boards"), Variable("board_id"), Literal(WordOf(i))];
    if RegionOf(i).Some? then board + [Variable(RegionOf(i).value)] else board
  }

  lemma {:induction false} JoinCons(first: string, rest: seq<string>)
    requires rest != []
    ensures Join([first] + rest) == first + "/" + Join(rest)
  {
    assert ([first] + rest)[1..] == rest;
  }

  lemma {:induction false} BoardJoins(words: seq<string>)
    requires words != []
    ensures Join(["", "boards", Marker("board_id")] + words)
            == "/" + ("boards" + "/" + (Marker("board_id") + "/" + Join(words)))
  {
    var inner := [Marker("board_id")] + words;
    JoinCons(Marker("board_id"), words);
    JoinCons("boards", inner);
    JoinCons("", ["boards"] + inner);
    assert [""] + (["boards"] + inner) == ["", "boards", Marker("board_id")] + words;
    hide Join, Marker;
    assert "" + "/" == "/";
  }

  lemma TemplateJoins(i: nat)
    requires i < 7
    ensures Join(Texts(SegmentsOf(i))) ==
            if RegionOf(i).Some? then OfRegion(WordOf(i), RegionOf(i).value) else OfBoard(WordOf(i))
  {
    hide Join, Marker;
    var words := if RegionOf(i).Some? then [WordOf(i), Marker(RegionOf(i).value)] else [WordOf(i)];
    assert Texts(SegmentsOf(i)) == ["", "boards", Marker("board_id")] + words;
    BoardJoins(words);
    OneJoins(WordOf(i));
    if RegionOf(i).Some? {
      OneJoins(Marker(RegionOf(i).value));
      JoinCons(WordOf(i), [Marker(RegionOf(i).value)]);
      assert [WordOf(i)] + [Marker(RegionOf(i).value)] == words;
    }
  }

  lemma OneJoins(s: string)
    ensures Join([s]) == s
  {
  }

  lemma TemplateOf(i: nat)
    requires i < 7
    ensures OPERATIONS[i].template ==
            if RegionOf(i).Some? then OfRegion(WordOf(i), RegionOf(i).value) else OfBoard(WordOf(i))
  {
    hide OfBoard, OfRegion;
    match i {
      case 0 =>
      case 1 =>
      case 2 =>
      case 3 =>
      case 4 =>
      case 5 =>
      case _ =>
    }
  }

  lemma WordsArePlain()
    ensures Plain("regions") && Plain("levels") && Plain("premises") && Plain("changes")
    ensures Plain("acknowledgements")
  {
  }

  lemma NamesArePlain()
    ensures Plain("") && Plain("boards") && Plain("board_id") && Plain("level") && Plain("premise")
    ensures "board_id" != "level" && "board_id" != "premise"
  {
    assert |"board_id"| == 8 && |"level"| == 5 && |"premise"| == 7;
  }

  lemma SegmentsAreFine(i: nat)
    requires i < 7
    ensures var segments := SegmentsOf(i);
            && (forall k :: 0 <= k < |segments| ==> SegmentOk(segments[k]))
            && (forall k, l :: 0 <= k < l < |segments| && segments[k].Variable? ==> segments[k] != segments[l])
  {
    WordsArePlain();
    NamesArePlain();
    hide Plain;
    var word := WordOf(i);
    assert Plain(word);
    assert RegionOf(i).Some? ==> Plain(RegionOf(i).value) && RegionOf(i).value != "board_id";
    hide WordOf, RegionOf;
  }

  lemma OperationsParsed(i: nat)
    requires i < 7
    ensures Parsed(OPERATIONS[i], SegmentsOf(i))
  {
    TemplateJoins(i);
    TemplateOf(i);
    SegmentsAreFine(i);
    hide Join, Texts, OfBoard, OfRegion, SegmentsOf, SegmentOk, WordOf, RegionOf;
  }

  // Two templates that differ in a word, or in length, take no path in common.
  lemma WordsApart(op: Operation, segments: seq<Segment>, others: seq<Segment>, bound: Binding, k: nat)
    requires Parsed(op, segments)
    requires others != [] && forall i :: 0 <= i < |others| ==> SegmentOk(others[i])
    requires |segments| != |others|
             || (k < |segments| && segments[k].Literal? && others[k].Literal? && segments[k] != others[k])
    ensures Matches(op.template, Join(Fill(others, bound))).None?
  {
    SplitsTemplate(op, segments);
    SplitsFilled(others, bound);
    var wanted, given := Texts(segments), Fill(others, bound);
    if |wanted| == |given| {
      assert SegmentOk(segments[k]);
      assert MatchFirst(wanted, given, k + 1).None?;
      hide Join, Split, Fill, Texts;
      NoneStays(wanted, given, k + 1, |wanted|);
    }
  }

  lemma Distinguished(i: nat, j: nat)
    requires i < 7 && j < 7 && i != j && OPERATIONS[i].http == OPERATIONS[j].http
    ensures |SegmentsOf(i)| != |SegmentsOf(j)| || SegmentsOf(i)[3] != SegmentsOf(j)[3]
  {
    hide SegmentsOf, OfBoard, OfRegion;
    assert |WordOf(0)| == 7 && WordOf(0)[0] == 'r' && WordOf(3)[0] == 'c' && WordOf(1)[0] == 'l' && WordOf(2)[0] == 'p';
  }

  // Routing

  datatype Routed = To(op: Operation, variables: Binding) | WrongMethod(allowed: set<Method>) | NoRoute

  method Route(http: Method, path: string) returns (routed: Routed)
    ensures routed.To? ==>
              && routed.op in OPERATIONS && routed.op.http == http
              && Matches(routed.op.template, path) == Some(routed.variables)
    ensures routed.NoRoute? <==> forall i :: 0 <= i < 7 ==> Matches(OPERATIONS[i].template, path).None?
    ensures routed.WrongMethod? ==>
              && (forall i :: 0 <= i < 7 && Matches(OPERATIONS[i].template, path).Some? ==>
                    OPERATIONS[i].http != http && OPERATIONS[i].http in routed.allowed)
              && (forall m :: m in routed.allowed ==>
                    exists i :: 0 <= i < 7 && OPERATIONS[i].http == m && Matches(OPERATIONS[i].template, path).Some?)
  {
    hide Matches;
    assert |OPERATIONS| == 7;
    var matched: seq<(Operation, Binding)> := [];
    ghost var at: seq<nat> := [];
    var i := 0;
    while i < |OPERATIONS|
      invariant 0 <= i <= 7 && |at| == |matched|
      invariant forall k :: 0 <= k < |matched| ==>
                  at[k] < i && matched[k].0 == OPERATIONS[at[k]]
                  && Matches(matched[k].0.template, path) == Some(matched[k].1)
      invariant forall j :: 0 <= j < i && Matches(OPERATIONS[j].template, path).Some? ==> j in at
    {
      var found := Match(OPERATIONS[i].template, path);
      if found.Some? {
        matched := matched + [(OPERATIONS[i], found.value)];
        at := at + [i];
      }
      i := i + 1;
    }
    if matched == [] {
      return NoRoute;
    }
    assert Matches(OPERATIONS[at[0]].template, path).Some?;
    routed := Choose(http, matched);
    hide Matches;
    if routed.WrongMethod? {
      MethodsFound(matched, at, path, routed.allowed);
    }
  }

  lemma MethodsFound(matched: seq<(Operation, Binding)>, at: seq<nat>, path: string, allowed: set<Method>)
    requires |at| == |matched|
    requires forall k :: 0 <= k < |matched| ==>
               at[k] < 7 && matched[k].0 == OPERATIONS[at[k]] && Matches(matched[k].0.template, path).Some?
    requires forall m :: m in allowed ==> exists k :: 0 <= k < |matched| && matched[k].0.http == m
    ensures forall m :: m in allowed ==>
              exists j :: 0 <= j < 7 && OPERATIONS[j].http == m && Matches(OPERATIONS[j].template, path).Some?
  {
    hide Matches;
    forall m | m in allowed
      ensures exists j :: 0 <= j < 7 && OPERATIONS[j].http == m && Matches(OPERATIONS[j].template, path).Some?
    {
      var k :| 0 <= k < |matched| && matched[k].0.http == m;
      assert OPERATIONS[at[k]].http == m;
    }
  }

  // The first of the matched that has the method, or the methods they have.
  method Choose(http: Method, matched: seq<(Operation, Binding)>) returns (routed: Routed)
    ensures !routed.NoRoute?
    ensures routed.To? ==> (routed.op, routed.variables) in matched && routed.op.http == http
    ensures routed.WrongMethod? ==>
              && (forall k :: 0 <= k < |matched| ==> matched[k].0.http != http && matched[k].0.http in routed.allowed)
              && (forall m :: m in routed.allowed ==> exists k :: 0 <= k < |matched| && matched[k].0.http == m)
  {
    var allowed := {};
    var k := 0;
    while k < |matched|
      invariant 0 <= k <= |matched|
      invariant forall j :: 0 <= j < k ==> matched[j].0.http != http && matched[j].0.http in allowed
      invariant forall m :: m in allowed ==> exists j :: 0 <= j < k && matched[j].0.http == m
    {
      if matched[k].0.http == http {
        return To(matched[k].0, matched[k].1);
      }
      allowed := allowed + {matched[k].0.http};
      k := k + 1;
    }
    return WrongMethod(allowed);
  }

  // A path built for an operation, with no name empty, is matched by that
  // operation with the same variables, and by no other of its method.
  lemma OnlyItsOwn(i: nat, bound: Binding, j: nat)
    requires i < 7 && j < 7
    requires forall n :: n in bound <==> Variable(n) in SegmentsOf(i)
    requires forall n :: n in bound ==> bound[n] != []
    ensures Matches(OPERATIONS[i].template, Join(Fill(SegmentsOf(i), bound))) == Some(bound)
    ensures j != i && OPERATIONS[j].http == OPERATIONS[i].http ==>
              Matches(OPERATIONS[j].template, Join(Fill(SegmentsOf(i), bound))).None?
  {
    OperationsParsed(i);
    OperationsParsed(j);
    BuiltMatchesIff(OPERATIONS[i], SegmentsOf(i), bound);
    if j != i && OPERATIONS[j].http == OPERATIONS[i].http {
      Distinguished(i, j);
      assert forall k :: 0 <= k < |SegmentsOf(i)| ==> SegmentOk(SegmentsOf(i)[k]);
      hide Matches, Join, Fill;
      WordsApart(OPERATIONS[j], SegmentsOf(j), SegmentsOf(i), bound, 3);
    }
  }

  lemma OwnRoute(i: nat, bound: Binding)
    requires i < 7
    requires forall n :: n in bound <==> Variable(n) in SegmentsOf(i)
    requires forall n :: n in bound ==> bound[n] != []
    ensures var path := Join(Fill(SegmentsOf(i), bound));
            && Matches(OPERATIONS[i].template, path) == Some(bound)
            && forall op :: op in OPERATIONS && op.http == OPERATIONS[i].http && op != OPERATIONS[i] ==>
                 Matches(op.template, path).None?
  {
    OnlyItsOwn(i, bound, i);
    forall op | op in OPERATIONS && op.http == OPERATIONS[i].http && op != OPERATIONS[i]
      ensures Matches(op.template, Join(Fill(SegmentsOf(i), bound))).None?
    {
      var j :| 0 <= j < |OPERATIONS| && OPERATIONS[j] == op;
      hide Matches, Join, Fill, SegmentsOf;
      OnlyItsOwn(i, bound, j);
    }
  }

  // Sent and routed: the operation and the variables come back.
  method SendAndRoute(i: nat, names: seq<string>, values: seq<Name>) returns (routed: Routed)
    requires i < 7 && |names| == |values|
    requires forall n :: n in names ==> Plain(n)
    requires forall k :: 0 <= k < |values| ==> values[k] != []
    requires forall k, l :: 0 <= k < l < |names| ==> names[k] != names[l]
    requires forall n :: n in names <==> Variable(n) in SegmentsOf(i)
    ensures routed == To(OPERATIONS[i], Bind(names, values))
  {
    OperationsParsed(i);
    BindKeys(names, values);
    BindValues(names, values);
    var built := Path(OPERATIONS[i], names, values, SegmentsOf(i));
    OwnRoute(i, Bind(names, values));
    hide Matches, Join, Fill, SegmentsOf, Bind, OfBoard, OfRegion;
    assert built.Built?;
    routed := Route(OPERATIONS[i].http, built.path);
  }
}

// What a service answers to a write, and what a client makes of it.
module Answers {
  import opened Values

  // A body is an object of plain values. Contents are carried, not read.
  datatype Json = Num(number: int) | Str(text: string) | Flag(flag: bool) | Null
  type Body = map<string, Json>

  datatype Cause = Admission | NotPermitted | RunClosed
  datatype Problem = UnknownRegion | WrongRegionKind | UnsetPremise | UnknownNotification | UnknownBoard | KeyReused

  datatype Outcome =
    | Written(sequence: int, version: Option<int>, repeated: bool)
    | Conflict(current: int)
    | Rejected(cause: Cause, reason: string)
    | Raises(problem: Problem)
    // An answer the client cannot read as any of these.
    | ProtocolError

  datatype Response = Response(status: int, body: Body)

  function CauseName(cause: Cause): string {
    match cause
    case Admission => "admission"
    case NotPermitted => "not_permitted"
    case RunClosed => "run_closed"
  }

  function ProblemName(problem: Problem): string {
    match problem
    case UnknownRegion => "unknown_region"
    case WrongRegionKind => "wrong_region_kind"
    case UnsetPremise => "unset_premise"
    case UnknownNotification => "unknown_notification"
    case UnknownBoard => "unknown_board"
    case KeyReused => "idempotency_key_reused"
  }

  function ErrorResponse(status: int, error: string, detail: string): Response {
    Response(status, map["error" := Str(error), "detail" := Str(detail)])
  }

  // The service's half. What it raises carries a detail of its own.
  function Encode(outcome: Outcome, detail: string): Response
    requires !outcome.ProtocolError?
  {
    match outcome
    case Written(sequence, version, repeated) =>
      Response(if repeated then 200 else 201,
               map["sequence" := Num(sequence), "repeated" := Flag(repeated),
                   "version" := if version.Some? then Num(version.value) else Null])
    case Conflict(current) => Response(409, map["current_version" := Num(current)])
    case Rejected(cause, reason) =>
      if cause == RunClosed then ErrorResponse(410, "run_closed", reason)
      else Response(422, map["cause" := Str(CauseName(cause)), "reason" := Str(reason)])
    case Raises(problem) => ErrorResponse(if problem == KeyReused then 409 else 404, ProblemName(problem), detail)
  }

  // The client's half

  function Named(body: Body): string {
    if "error" in body && body["error"].Str? then body["error"].text else ""
  }

  function Detail(body: Body): string {
    if "detail" in body && body["detail"].Str? then body["detail"].text else ""
  }

  function ProblemOf(name: string): Option<Problem> {
    if name == "unknown_board" then Some(UnknownBoard)
    else if name == "unknown_region" then Some(UnknownRegion)
    else if name == "wrong_region_kind" then Some(WrongRegionKind)
    else if name == "unset_premise" then Some(UnsetPremise)
    else if name == "unknown_notification" then Some(UnknownNotification)
    else if name == "idempotency_key_reused" then Some(KeyReused)
    else None
  }

  function Refuse(status: int, body: Body): Outcome {
    if 400 <= status < 500 && ProblemOf(Named(body)).Some? then Raises(ProblemOf(Named(body)).value)
    else ProtocolError
  }

  // A required field missing is an error; one not known is passed over, and
  // an optional one absent takes its default.
  function WrittenOf(status: int, body: Body): Outcome {
    if "sequence" !in body || !body["sequence"].Num? then ProtocolError
    else
      Written(body["sequence"].number,
              if "version" in body && body["version"].Num? then Some(body["version"].number) else None,
              ("repeated" in body && body["repeated"] == Flag(true)) || status == 200)
  }

  function RejectionOf(body: Body): Outcome {
    if "cause" !in body || "reason" !in body || !body["cause"].Str? || !body["reason"].Str? then ProtocolError
    else if body["cause"].text == "admission" then Rejected(Admission, body["reason"].text)
    else if body["cause"].text == "not_permitted" then Rejected(NotPermitted, body["reason"].text)
    else if body["cause"].text == "run_closed" then Rejected(RunClosed, body["reason"].text)
    else ProtocolError
  }

  function WriteOutcome(status: int, body: Body): Outcome {
    if status == 409 && Named(body) == "idempotency_key_reused" then Refuse(status, body)
    else if status == 200 || status == 201 then WrittenOf(status, body)
    else if status == 422 then RejectionOf(body)
    else if status == 410 then Rejected(RunClosed, Detail(body))
    else Refuse(status, body)
  }

  function PremiseOutcome(status: int, body: Body): Outcome {
    if status == 409 then
      if Named(body) == "idempotency_key_reused" then Refuse(status, body)
      else if "current_version" in body && body["current_version"].Num? then Conflict(body["current_version"].number)
      else ProtocolError
    else WriteOutcome(status, body)
  }

  // The statuses a client sends again on.
  predicate Again(status: int) { status >= 500 || status == 408 || status == 425 || status == 429 }

  const KNOWN := {"sequence", "version", "repeated", "current_version", "cause", "reason", "error", "detail"}

  // A body with fields of a later version beside its own reads as itself.
  lemma ReadsAsItself(extra: Body, body: Body, k: string)
    requires extra.Keys !! KNOWN && k in KNOWN
    ensures k in extra + body <==> k in body
    ensures k in body ==> (extra + body)[k] == body[k]
  {
  }

  lemma AllRead(extra: Body, body: Body)
    requires extra.Keys !! KNOWN
    ensures forall k :: k in KNOWN ==> (k in extra + body <==> k in body) && (k in body ==> (extra + body)[k] == body[k])
  {
    forall k | k in KNOWN
      ensures (k in extra + body <==> k in body) && (k in body ==> (extra + body)[k] == body[k])
    {
      ReadsAsItself(extra, body, k);
    }
  }

  // Whatever a service answers to a write, with any fields of a later version
  // beside it, is what the client reads; and no such answer is taken for one
  // that asks for another attempt.
  lemma AnswerComesBack(outcome: Outcome, detail: string, extra: Body)
    requires !outcome.ProtocolError? && extra.Keys !! KNOWN
    ensures var response := Encode(outcome, detail);
            && PremiseOutcome(response.status, extra + response.body) == outcome
            && (!outcome.Conflict? ==> WriteOutcome(response.status, extra + response.body) == outcome)
            && !Again(response.status)
  {
    AllRead(extra, Encode(outcome, detail).body);
    assert "error" in KNOWN && "current_version" in KNOWN && "sequence" in KNOWN && "version" in KNOWN;
    assert "repeated" in KNOWN && "cause" in KNOWN && "reason" in KNOWN && "detail" in KNOWN;
    match outcome {
      case Written(_, _, _) =>
      case Conflict(_) =>
      case Rejected(cause, reason) =>
        if cause != RunClosed { RejectionComesBack(cause, reason, extra); }
      case Raises(problem) => NameComesBack(problem);
    }
  }

  lemma NameComesBack(problem: Problem)
    ensures ProblemOf(ProblemName(problem)) == Some(problem)
    ensures problem == KeyReused <==> ProblemName(problem) == "idempotency_key_reused"
  {
    assert |"unknown_board"| == 13 && |"unknown_region"| == 14 && |"wrong_region_kind"| == 17
           && |"unset_premise"| == 13 && |"unknown_notification"| == 20 && |"idempotency_key_reused"| == 22;
    assert "unset_premise"[2] == 's' && "unknown_board"[2] == 'k';
  }

  lemma RejectionComesBack(cause: Cause, reason: string, extra: Body)
    requires extra.Keys !! KNOWN
    ensures RejectionOf(extra + map["cause" := Str(CauseName(cause)), "reason" := Str(reason)]) == Rejected(cause, reason)
  {
    AllRead(extra, map["cause" := Str(CauseName(cause)), "reason" := Str(reason)]);
    assert "cause" in KNOWN && "reason" in KNOWN;
    assert |"admission"| == 9 && |"not_permitted"| == 13 && |"run_closed"| == 10;
  }

  // The optional fields of a written body are optional: an older service's
  // answer without them is still read.
  lemma OlderAnswerIsRead(status: int, sequence: int)
    requires status == 200 || status == 201
    ensures WriteOutcome(status, map["sequence" := Num(sequence)]) == Written(sequence, None, status == 200)
  {
  }
}
