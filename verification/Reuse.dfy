/**
 Whether an authored graph pasted the values it was given: the scanner for quoted
 literals in an expression, and the search for distinctive inputs among the
 string leaves of node configurations.
 */
module Reuse {
  import opened Common
  import opened Json

  // ------------------------------------------------------------- Quoted literals

  function Unescaped(c: char): char {
    if c == 'n' then '\n' else if c == 't' then '\t' else if c == 'r' then '\r' else c
  }

  /** The literals found in `text`, given the one that is open, if any. */
  function Scan(text: string, open: Option<string>): seq<string> {
    if text == [] then []
    else if text[0] == '\"' then
      if open.Some? then [open.value] + Scan(text[1..], None) else Scan(text[1..], Some(""))
    else if open.None? then Scan(text[1..], None)
    else if text[0] == '\\' then
      if |text| == 1 then [] else Scan(text[2..], Some(open.value + [Unescaped(text[1])]))
    else Scan(text[1..], Some(open.value + [text[0]]))
  }

  method QuotedLiterals(expression: string) returns (literals: seq<string>)
    ensures literals == Scan(expression, None)
  {
    literals := [];
    var current: Option<string> := None;
    var i := 0;
    while i < |expression|
      invariant 0 <= i <= |expression|
      invariant Scan(expression, None) == literals + Scan(expression[i..], current)
    {
      var ch, rest := expression[i], expression[i..];
      assert rest[0] == ch && rest[1..] == expression[i + 1..];
      i := i + 1;
      if ch == '\"' {
        if current.Some? {
          assert literals + ([current.value] + Scan(expression[i..], None))
              == literals + [current.value] + Scan(expression[i..], None);
          literals, current := literals + [current.value], None;
        } else {
          current := Some("");
        }
      } else if ch == '\\' && current.Some? {
        if i < |expression| {
          assert rest[2..] == expression[i + 1..] && rest[1] == expression[i];
          current := Some(current.value + [Unescaped(expression[i])]);
          i := i + 1;
        }
      } else if current.Some? {
        current := Some(current.value + [ch]);
      }
    }
  }

  // What the scanner inverts.

  /** One character of a quoted string as written: itself, or escaped. */
  datatype Unit = Plain(c: char) | Escaped(c: char)

  /** A stretch of an expression: text without a quote, or a quoted string. */
  datatype Piece = Filler(text: string) | Quoted(units: seq<Unit>)

  predicate WellFormed(p: Piece) {
    match p
    case Filler(text) => '\"' !in text
    case Quoted(units) => forall u | u in units :: IsUnit(u)
  }

  predicate IsUnit(u: Unit) {
    u.Plain? ==> u.c != '\"' && u.c != '\\'
  }

  function Denotes(u: Unit): char {
    if u.Plain? then u.c else Unescaped(u.c)
  }

  function Written(units: seq<Unit>): string {
    if units == [] then ""
    else (if units[0].Plain? then [units[0].c] else ['\\', units[0].c]) + Written(units[1..])
  }

  function Meaning(units: seq<Unit>): string {
    if units == [] then ""
    else [Denotes(units[0])] + Meaning(units[1..])
  }

  function Render(pieces: seq<Piece>): string {
    if pieces == [] then ""
    else
      (match pieces[0]
       case Filler(text) => text
       case Quoted(units) => ['\"'] + Written(units) + ['\"']) + Render(pieces[1..])
  }

  function Strings(pieces: seq<Piece>): seq<string> {
    if pieces == [] then []
    else (if pieces[0].Quoted? then [Meaning(pieces[0].units)] else []) + Strings(pieces[1..])
  }

  lemma {:induction false} ScanFiller(text: string, rest: string)
    requires '\"' !in text
    ensures Scan(text + rest, None) == Scan(rest, None)
  {
    if text == [] {
      assert text + rest == rest;
    } else {
      assert (text + rest)[1..] == text[1..] + rest;
      ScanFiller(text[1..], rest);
    }
  }

  lemma ScanUnit(u: Unit, open: string, tail: string)
    requires IsUnit(u)
    ensures Scan((if u.Plain? then [u.c] else ['\\', u.c]) + tail, Some(open)) == Scan(tail, Some(open + [Denotes(u)]))
  {
    if u.Plain? {
      assert ([u.c] + tail)[1..] == tail;
    } else {
      assert (['\\', u.c] + tail)[2..] == tail;
    }
  }

  lemma {:induction false} ScanQuoted(units: seq<Unit>, open: string, rest: string)
    requires WellFormed(Quoted(units))
    ensures Scan(Written(units) + ['\"'] + rest, Some(open)) == [open + Meaning(units)] + Scan(rest, None)
  {
    if units == [] {
      var text := ['\"'] + rest;
      assert Written(units) + ['\"'] + rest == text && text[1..] == rest;
      assert open + Meaning(units) == open;
    } else {
      var u, tail := units[0], Written(units[1..]) + ['\"'] + rest;
      assert u in units;
      ScanQuoted(units[1..], open + [Denotes(u)], rest);
      assert open + [Denotes(u)] + Meaning(units[1..]) == open + Meaning(units);
      ScanUnit(u, open, tail);
      assert Written(units) + ['\"'] + rest == (if u.Plain? then [u.c] else ['\\', u.c]) + tail;
    }
  }

  /** Scanning filler and quoted strings returns exactly what the strings mean, in order. */
  lemma {:induction false} ScanInvertsRender(pieces: seq<Piece>)
    requires forall p | p in pieces :: WellFormed(p)
    ensures Scan(Render(pieces), None) == Strings(pieces)
  {
    if pieces != [] {
      var rest := Render(pieces[1..]);
      assert pieces[0] in pieces;
      ScanInvertsRender(pieces[1..]);
      match pieces[0] {
        case Filler(text) => ScanFiller(text, rest);
        case Quoted(units) =>
          assert Render(pieces) == ['\"'] + (Written(units) + ['\"'] + rest);
          assert Render(pieces)[1..] == Written(units) + ['\"'] + rest;
          ScanQuoted(units, "", rest);
          assert "" + Meaning(units) == Meaning(units);
      }
    }
  }

  /** The escaping a writer would use: quotes, backslashes and control characters. */
  function EscapeChar(c: char): (u: Unit)
    ensures IsUnit(u) && Denotes(u) == c
  {
    if c == '\"' || c == '\\' then Escaped(c)
    else if c == '\n' then Escaped('n')
    else if c == '\t' then Escaped('t')
    else if c == '\r' then Escaped('r')
    else Plain(c)
  }

  function Escape(text: string): seq<Unit> {
    if text == [] then [] else [EscapeChar(text[0])] + Escape(text[1..])
  }

  lemma {:induction false} EscapeMeansItself(text: string)
    ensures WellFormed(Quoted(Escape(text))) && Meaning(Escape(text)) == text
  {
    if text != [] {
      EscapeMeansItself(text[1..]);
      assert text == [text[0]] + text[1..];
      assert Escape(text)[1..] == Escape(text[1..]);
    }
  }

  /** In particular a string escaped that way and quoted is found again as it was. */
  lemma EscapedStringIsFound(before: string, text: string, after: string)
    requires '\"' !in before && '\"' !in after
    ensures Scan(before + ['\"'] + Written(Escape(text)) + ['\"'] + after, None) == [text]
  {
    var body := Written(Escape(text)) + ['\"'] + after;
    var quoted := ['\"'] + body;
    EscapeMeansItself(text);
    assert before + ['\"'] + Written(Escape(text)) + ['\"'] + after == before + quoted;
    ScanFiller(before, quoted);
    assert quoted[1..] == body;
    ScanQuoted(Escape(text), "", after);
    ScanFiller(after, "");
    assert after + "" == after && "" + text == text;
  }

  // --------------------------------------------------------------------- Leaves

  /** Every string leaf, keys excluded, in order. */
  function Leaves(v: Value): seq<string>
    decreases v, 0
  {
    match v
    case Text(text) => [text]
    case Array(items) => ItemLeaves(v, |items|)
    case Object(members) => MemberLeaves(v, |members|)
    case _ => []
  }

  function ItemLeaves(v: Value, n: nat): seq<string>
    requires v.Array? && n <= |v.items|
    decreases v, 0, n
  {
    if n == 0 then [] else ItemLeaves(v, n - 1) + Leaves(v.items[n - 1])
  }

  function MemberLeaves(v: Value, n: nat): seq<string>
    requires v.Object? && n <= |v.members|
    decreases v, 0, n
  {
    if n == 0 then [] else MemberLeaves(v, n - 1) + Leaves(v.members[n - 1].1)
  }

  /** `out` grows by the leaves of the value. */
  method CollectStrings(v: Value, out: seq<string>) returns (r: seq<string>)
    ensures r == out + Leaves(v)
    decreases v
  {
    r := out;
    match v {
      case Text(text) => r := r + [text];
      case Array(items) =>
        for i := 0 to |items|
          invariant r == out + ItemLeaves(v, i)
        {
          r := CollectStrings(items[i], r);
        }
      case Object(members) =>
        for i := 0 to |members|
          invariant r == out + MemberLeaves(v, i)
        {
          r := CollectStrings(members[i].1, r);
        }
      case _ =>
    }
  }

  /** The string `s` stands somewhere in `v` as a value. */
  ghost predicate HasLeaf(v: Value, s: string) {
    match v
    case Text(text) => text == s
    case Array(items) => exists i | 0 <= i < |items| :: HasLeaf(items[i], s)
    case Object(members) => exists i | 0 <= i < |members| :: HasLeaf(members[i].1, s)
    case _ => false
  }

  lemma {:induction false} LeavesAreLeaves(v: Value, s: string)
    ensures s in Leaves(v) <==> HasLeaf(v, s)
    decreases v, 1
  {
    match v
    case Array(items) => ItemsAreLeaves(v, s, |items|);
    case Object(members) => MembersAreLeaves(v, s, |members|);
    case Text(_) =>
    case Null =>
    case Bool(_) =>
    case Number(_) =>
  }

  lemma {:induction false} ItemsAreLeaves(v: Value, s: string, n: nat)
    requires v.Array? && n <= |v.items|
    ensures s in ItemLeaves(v, n) <==> exists i | 0 <= i < n :: HasLeaf(v.items[i], s)
    decreases v, 0, n
  {
    if n > 0 {
      ItemsAreLeaves(v, s, n - 1);
      LeavesAreLeaves(v.items[n - 1], s);
    }
  }

  lemma {:induction false} MembersAreLeaves(v: Value, s: string, n: nat)
    requires v.Object? && n <= |v.members|
    ensures s in MemberLeaves(v, n) <==> exists i | 0 <= i < n :: HasLeaf(v.members[i].1, s)
    decreases v, 0, n
  {
    if n > 0 {
      MembersAreLeaves(v, s, n - 1);
      LeavesAreLeaves(v.members[n - 1].1, s);
    }
  }

  // -------------------------------------------------------------------- The gate

  /** The Unicode characters with the White_Space property. */
  predicate IsSpace(c: char) {
    || '\U{9}' <= c <= '\U{d}' || c == ' ' || c == '\U{85}' || c == '\U{a0}' || c == '\U{1680}'
    || '\U{2000}' <= c <= '\U{200a}' || c == '\U{2028}' || c == '\U{2029}' || c == '\U{202f}' || c == '\U{205f}'
    || c == '\U{3000}'
  }

  function TrimStart(s: string): string {
    if s != [] && IsSpace(s[0]) then TrimStart(s[1..]) else s
  }

  function TrimEnd(s: string): string {
    if s != [] && IsSpace(s[|s| - 1]) then TrimEnd(s[..|s| - 1]) else s
  }

  function Trim(s: string): string { TrimEnd(TrimStart(s)) }

  predicate AllSpace(s: string) {
    forall c | c in s :: IsSpace(c)
  }

  lemma {:induction false} TrimStartDrops(s: string) returns (lead: string)
    ensures s == lead + TrimStart(s) && AllSpace(lead)
    ensures TrimStart(s) != [] ==> !IsSpace(TrimStart(s)[0])
  {
    lead := "";
    if s != [] && IsSpace(s[0]) {
      var more := TrimStartDrops(s[1..]);
      lead := [s[0]] + more;
    }
  }

  lemma {:induction false} TrimEndDrops(s: string) returns (tail: string)
    ensures s == TrimEnd(s) + tail && AllSpace(tail)
    ensures TrimEnd(s) != [] ==> !IsSpace(TrimEnd(s)[|TrimEnd(s)| - 1])
  {
    tail := "";
    if s != [] && IsSpace(s[|s| - 1]) {
      var more := TrimEndDrops(s[..|s| - 1]);
      tail := more + [s[|s| - 1]];
    }
  }

  /** Trimming drops white space at both ends and nothing else. */
  lemma TrimDrops(s: string) returns (lead: string, tail: string)
    ensures s == lead + Trim(s) + tail && AllSpace(lead) && AllSpace(tail)
    ensures Trim(s) != [] ==> !IsSpace(Trim(s)[0]) && !IsSpace(Trim(s)[|Trim(s)| - 1])
  {
    lead := TrimStartDrops(s);
    tail := TrimEndDrops(TrimStart(s));
    assert Trim(s) != [] ==> Trim(s)[0] == TrimStart(s)[0];
  }

  const LONG_ENOUGH: nat := 8

  predicate Marks(c: char) {
    c == '/' || c == '.' || c == ':' || c == '@' || c == '_' || c == '-'
  }

  predicate Distinctive(value: string) {
    || |value| >= LONG_ENOUGH
    || (exists c | c in value :: Marks(c))
    || (|value| >= 4 && exists c | c in value :: '0' <= c <= '9')
  }

  /** The values the documentation names as telling and as not telling. */
  lemma DocumentedExamples()
    ensures Distinctive("acme/thing") && Distinctive("/docs/q3.pdf") &&
            Distinctive("PROJ-1234") && Distinctive("ops@example.com")
    ensures !Distinctive("1") && !Distinctive("true") && !Distinctive("main") &&
            Distinctive("ab12") && !Distinctive("a12")
  {
    assert "ab12"[2] == '1' && '1' in "ab12";
  }

  predicate Contains(text: string, part: string) {
    exists i | 0 <= i <= |text| :: part <= text[i..]
  }

  /** An expression counts by its quoted literals only, anything else by its whole text. */
  predicate Pasted(leaf: string, value: string) {
    if leaf != [] && leaf[0] == '=' then exists l | l in Scan(leaf, None) :: Contains(l, value)
    else Contains(leaf, value)
  }

  /** The distinctive values among the inputs. */
  function Specifics(inputs: Members): seq<string> {
    if inputs == [] then []
    else
      var before, v := Specifics(inputs[..|inputs| - 1]), inputs[|inputs| - 1].1;
      if v.Text? && Distinctive(Trim(v.text)) then before + [Trim(v.text)] else before
  }

  /** A string input that, trimmed, is this distinctive value. */
  ghost predicate Supplied(inputs: Members, value: string) {
    Distinctive(value) && exists i | 0 <= i < |inputs| :: inputs[i].1.Text? && Trim(inputs[i].1.text) == value
  }

  lemma {:induction false} SpecificsAreInputs(inputs: Members, value: string)
    ensures value in Specifics(inputs) <==> Supplied(inputs, value)
  {
    if inputs != [] {
      SpecificsAreInputs(inputs[..|inputs| - 1], value);
    }
  }

  ghost predicate NoRepeats(s: seq<string>) {
    forall i, j | 0 <= i < j < |s| :: s[i] != s[j]
  }

  /** Some string leaf of the first `n` configurations pasted the value. */
  ghost predicate PastedIn(configs: seq<Value>, n: nat, value: string)
    requires n <= |configs|
  {
    exists i, leaf | 0 <= i < n && HasLeaf(configs[i], leaf) :: Pasted(leaf, value)
  }

  ghost function Hit(leaf: string, value: string): seq<string> {
    if Pasted(leaf, value) then [value] else []
  }

  /** The values a leaf pasted, each as often as it was supplied. */
  ghost function LeafHits(leaf: string, values: seq<string>): seq<string> {
    if values == [] then []
    else LeafHits(leaf, values[..|values| - 1]) + Hit(leaf, values[|values| - 1])
  }

  ghost function LeavesHits(leaves: seq<string>, values: seq<string>): seq<string> {
    if leaves == [] then []
    else LeavesHits(leaves[..|leaves| - 1], values) + LeafHits(leaves[|leaves| - 1], values)
  }

  /** Every finding, configuration by configuration, leaf by leaf, value by value. */
  ghost function Hits(configs: seq<Value>, values: seq<string>): seq<string> {
    if configs == [] then []
    else Hits(configs[..|configs| - 1], values) + LeavesHits(Leaves(configs[|configs| - 1]), values)
  }

  /** The first sequence lists each finding of the second once, in the order of first finding. */
  ghost predicate Lists(found: seq<string>, hits: seq<string>) {
    && NoRepeats(found) && (forall x :: x in found <==> x in hits)
    && forall i, j | 0 <= i < j < |found| :: FoundBefore(found[i], found[j], hits)
  }

  ghost predicate FoundBefore(x: string, y: string, hits: seq<string>) {
    exists k | 0 <= k < |hits| :: hits[k] == x && y !in hits[..k + 1]
  }

  lemma ListsNext(found: seq<string>, hits: seq<string>, x: string)
    requires Lists(found, hits)
    ensures Lists(if x in found then found else found + [x], hits + [x])
  {
    var next := if x in found then found else found + [x];
    forall i, j | 0 <= i < j < |next|
      ensures FoundBefore(next[i], next[j], hits + [x])
    {
      assert j < |found| ==> FoundBefore(found[i], found[j], hits);
      FoundStays(found[i], next[j], hits, x);
    }
  }

  lemma FoundStays(x: string, y: string, hits: seq<string>, last: string)
    requires x in hits && (FoundBefore(x, y, hits) || y !in hits)
    ensures FoundBefore(x, y, hits + [last])
  {
    var k :| 0 <= k < |hits| && hits[k] == x && y !in hits[..k + 1];
    assert (hits + [last])[k] == x && (hits + [last])[..k + 1] == hits[..k + 1];
  }

  method CheckValue(leaf: string, value: string, found: seq<string>, ghost hits: seq<string>) returns (r: seq<string>)
    requires Lists(found, hits)
    ensures Lists(r, hits + Hit(leaf, value))
  {
    var pasted: bool;
    if leaf != [] && leaf[0] == '=' {
      var literals := QuotedLiterals(leaf);
      pasted := exists l | l in literals :: Contains(l, value);
    } else {
      pasted := Contains(leaf, value);
    }
    r := if pasted && value !in found then found + [value] else found;
    if pasted {
      ListsNext(found, hits, value);
    } else {
      assert hits + [] == hits;
    }
  }

  method CheckLeaf(leaf: string, values: seq<string>, found: seq<string>, ghost hits: seq<string>)
      returns (r: seq<string>)
    requires Lists(found, hits)
    ensures Lists(r, hits + LeafHits(leaf, values))
    ensures forall x :: x in r <==> x in found || (x in values && Pasted(leaf, x))
  {
    r := found;
    assert hits + LeafHits(leaf, values[..0]) == hits;
    for i := 0 to |values|
      invariant Lists(r, hits + LeafHits(leaf, values[..i]))
    {
      LeafHitsNext(leaf, values, i, hits);
      r := CheckValue(leaf, values[i], r, hits + LeafHits(leaf, values[..i]));
    }
    assert values[..|values|] == values;
    forall x
      ensures x in LeafHits(leaf, values) <==> x in values && Pasted(leaf, x)
    {
      LeafHitsArePasted(leaf, values, x);
    }
  }

  lemma LeafHitsNext(leaf: string, values: seq<string>, i: nat, hits: seq<string>)
    requires i < |values|
    ensures hits + LeafHits(leaf, values[..i + 1]) == hits + LeafHits(leaf, values[..i]) + Hit(leaf, values[i])
  {
    assert values[..i + 1][..i] == values[..i];
  }

  method CheckConfig(config: Value, values: seq<string>, found: seq<string>, ghost hits: seq<string>)
      returns (r: seq<string>)
    requires Lists(found, hits)
    ensures Lists(r, hits + LeavesHits(Leaves(config), values))
  {
    r := found;
    var leaves := CollectStrings(config, []);
    assert leaves == Leaves(config);
    assert hits + LeavesHits(leaves[..0], values) == hits;
    for i := 0 to |leaves|
      invariant Lists(r, hits + LeavesHits(leaves[..i], values))
    {
      LeavesHitsNext(leaves, values, i, hits);
      r := CheckLeaf(leaves[i], values, r, hits + LeavesHits(leaves[..i], values));
    }
    assert leaves[..|leaves|] == leaves;
  }

  lemma LeavesHitsNext(leaves: seq<string>, values: seq<string>, i: nat, hits: seq<string>)
    requires i < |leaves|
    ensures hits + LeavesHits(leaves[..i + 1], values) ==
              hits + LeavesHits(leaves[..i], values) + LeafHits(leaves[i], values)
  {
    assert leaves[..i + 1][..i] == leaves[..i];
  }

  /**
   `baked_in`: exactly the distinctive inputs that stand in a plain leaf or in a
   quoted literal of an expression leaf, each once, in the order of first finding.
   */
  method BakedIn(configs: seq<Value>, inputs: Members) returns (found: seq<string>)
    ensures forall x :: x in found <==> Supplied(inputs, x) && PastedIn(configs, |configs|, x)
    ensures Lists(found, Hits(configs, Specifics(inputs)))
  {
    found := [];
    var values := Specifics(inputs);
    forall x
      ensures x in values <==> Supplied(inputs, x)
      ensures x in Hits(configs, values) <==> x in values && PastedIn(configs, |configs|, x)
    {
      SpecificsAreInputs(inputs, x);
      HitsArePasted(configs, values, x);
    }
    if values == [] {
      return;
    }
    for i := 0 to |configs|
      invariant Lists(found, Hits(configs[..i], values))
    {
      assert configs[..i + 1][..i] == configs[..i];
      found := CheckConfig(configs[i], values, found, Hits(configs[..i], values));
    }
    assert configs[..|configs|] == configs;
  }

  /** Findings are exactly the supplied values that some leaf pasted. */
  lemma {:induction false} HitsArePasted(configs: seq<Value>, values: seq<string>, x: string)
    ensures x in Hits(configs, values) <==> x in values && PastedIn(configs, |configs|, x)
  {
    if configs != [] {
      var n := |configs| - 1;
      HitsArePasted(configs[..n], values, x);
      LeavesHitsArePasted(Leaves(configs[n]), values, x);
      PastedInNext(configs, n, x);
      PastedInPrefix(configs, n, x);
    }
  }

  lemma {:induction false} LeavesHitsArePasted(leaves: seq<string>, values: seq<string>, x: string)
    ensures x in LeavesHits(leaves, values) <==> x in values && exists leaf | leaf in leaves :: Pasted(leaf, x)
  {
    if leaves != [] {
      var n := |leaves| - 1;
      LeavesHitsArePasted(leaves[..n], values, x);
      LeafHitsArePasted(leaves[n], values, x);
      assert leaves == leaves[..n] + [leaves[n]];
    }
  }

  lemma {:induction false} LeafHitsArePasted(leaf: string, values: seq<string>, x: string)
    ensures x in LeafHits(leaf, values) <==> x in values && Pasted(leaf, x)
  {
    if values != [] {
      var n := |values| - 1;
      LeafHitsArePasted(leaf, values[..n], x);
      assert values == values[..n] + [values[n]];
    }
  }

  lemma PastedInPrefix(configs: seq<Value>, n: nat, value: string)
    requires n <= |configs|
    ensures PastedIn(configs[..n], n, value) <==> PastedIn(configs, n, value)
  {
    if i, leaf :| 0 <= i < n && HasLeaf(configs[i], leaf) && Pasted(leaf, value) {
      assert HasLeaf(configs[..n][i], leaf);
    }
    if i, leaf :| 0 <= i < n && HasLeaf(configs[..n][i], leaf) && Pasted(leaf, value) {
      assert HasLeaf(configs[i], leaf);
    }
  }

  lemma PastedInNext(configs: seq<Value>, n: nat, value: string)
    requires n < |configs|
    ensures PastedIn(configs, n + 1, value) <==>
              PastedIn(configs, n, value) || exists leaf | leaf in Leaves(configs[n]) :: Pasted(leaf, value)
  {
    forall leaf
      ensures leaf in Leaves(configs[n]) <==> HasLeaf(configs[n], leaf)
    {
      LeavesAreLeaves(configs[n], leaf);
    }
    if leaf :| leaf in Leaves(configs[n]) && Pasted(leaf, value) {
      assert 0 <= n < n + 1;
    }
  }
}
