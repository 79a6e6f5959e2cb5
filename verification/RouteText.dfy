/** The route file as text: the lines genRouteFile writes are the lines initRouteTable reads. */
module RouteText {
  import opened Names
  import opened AppIds
  import opened Routers
  import opened RouteFile
  import TreeRouting
  import XmlText

  /** A dotted name. */
  function Dotted(name: Name): string {
    if name == [] then "" else if |name| == 1 then name[0] else Dotted(name[..|name| - 1]) + "." + name[|name| - 1]
  }

  function Split(s: string): (name: Name)
    ensures name != []
  {
    if s == [] then [""]
    else
      var init := Split(s[..|s| - 1]);
      var c := s[|s| - 1];
      if c == '.' then init + [""] else init[..|init| - 1] + [init[|init| - 1] + [c]]
  }

  predicate Clean(s: string) { forall c :: c in s ==> c != '.' && c != ':' && c != '\n' }

  predicate CleanName(name: Name) { name != [] && forall k :: 0 <= k < |name| ==> Clean(name[k]) }

  /** The last component grows until the next dot. */
  function Longer(name: Name, b: string): Name
    requires name != []
  {
    name[..|name| - 1] + [name[|name| - 1] + b]
  }

  lemma {:induction false} SplitMore(a: string, b: string)
    requires Clean(b)
    ensures Split(a + b) == Longer(Split(a), b)
  {
    if b == [] {
      assert a + b == a;
      var last := Split(a)[|Split(a)| - 1];
      assert last + b == last;
    } else {
      var init, c := b[..|b| - 1], b[|b| - 1];
      assert forall x :: x in init ==> x in b;
      SplitMore(a, init);
      assert (a + b)[..|a + b| - 1] == a + init && (a + b)[|a + b| - 1] == c && c in b;
      assert init + [c] == b;
      Lengthened(Split(a), init, c);
    }
  }

  lemma Lengthened(name: Name, b: string, c: char)
    requires name != []
    ensures Longer(Longer(name, b), [c]) == Longer(name, b + [c])
  {
    var last := name[|name| - 1];
    assert (last + b) + [c] == last + (b + [c]);
  }

  lemma SplitDot(a: string)
    ensures Split(a + ".") == Split(a) + [""]
  {
    assert (a + ".")[..|a|] == a;
  }

  lemma OneMore(s: string, name: Name, last: string)
    requires Split(s) == name && Clean(last)
    ensures Split(s + "." + last) == name + [last]
  {
    hide Split, Clean;
    SplitDot(s);
    SplitMore(s + ".", last);
    assert "" + last == last;
  }

  /** A dotted name whose components have no dots is taken apart again. */
  lemma {:induction false} SplitDotted(name: Name)
    requires CleanName(name)
    ensures Split(Dotted(name)) == name
  {
    var last := name[|name| - 1];
    if |name| == 1 {
      SplitMore("", last);
      assert "" + last == last && Split("") == [""];
    } else {
      var up := name[..|name| - 1];
      hide Split, Clean;
      SplitDotted(up);
      OneMore(Dotted(up), up, last);
      assert name == up + [last];
    }
  }

  lemma {:induction false} DottedClean(name: Name)
    requires CleanName(name)
    ensures forall c :: c in Dotted(name) ==> c != ':' && c != '\n'
  {
    if 1 < |name| { DottedClean(name[..|name| - 1]); }
  }

  // ----- numbers -----

  predicate IsDigit(c: char) { '0' <= c <= '9' }

  /** The digits atoi looks at. */
  function DigitRun(s: string): (n: nat)
    ensures n <= |s| && (n < |s| ==> !IsDigit(s[n])) && forall k :: 0 <= k < n ==> IsDigit(s[k])
  {
    if s == [] || !IsDigit(s[0]) then 0 else 1 + DigitRun(s[1..])
  }

  function Atoi(s: string): nat { ParseInt(s[..DigitRun(s)]) }

  lemma {:induction false} AllDigits(n: nat)
    ensures forall c :: c in Digits(n) ==> IsDigit(c)
  {
    if 10 <= n { AllDigits(n / 10); }
  }

  lemma {:induction false} RunAt(d: string, rest: string)
    requires (forall c :: c in d ==> IsDigit(c)) && (rest != [] ==> !IsDigit(rest[0]))
    ensures DigitRun(d + rest) == |d|
  {
    if d == [] {
      assert d + rest == rest;
    } else {
      assert (d + rest)[1..] == d[1..] + rest;
      RunAt(d[1..], rest);
    }
  }

  /** atoi of a number and something that is no digit. */
  lemma AtoiDigits(n: nat, rest: string)
    requires rest != [] ==> !IsDigit(rest[0])
    ensures Atoi(Digits(n) + rest) == n
  {
    AllDigits(n);
    RunAt(Digits(n), rest);
    assert (Digits(n) + rest)[..|Digits(n)|] == Digits(n);
    ParseDigits(n);
  }

  // ----- one line -----

  function LineOf(r: Route): string { Dotted(r.name) + ":" + Digits(r.rtr) + ":" + Digits(r.server) }

  /** A line of the file, to the letter. */
  lemma LineExample()
    ensures LineOf(Route(NodeName(0, 1, 2), 34, 5)) == "plat.cab0.board1.node2:34:5"
  {
    var node := NodeName(0, 1, 2);
    assert DigitChar(3) == '3' && DigitChar(4) == '4' && Digits(3) == "3" && 34 / 10 == 3 && 34 % 10 == 4;
    assert Digits(34) == Digits(3) + [DigitChar(4)];
    assert Digits(0) == "0" && Digits(1) == "1" && Digits(2) == "2" && Digits(5) == "5";
    assert Tagged("cab", 0) == "cab0" && Tagged("board", 1) == "board1" && Tagged("node", 2) == "node2";
    hide Digits, DigitChar, Tagged;
    assert node == ["plat", "cab0", "board1", "node2"];
    assert node[..3] == ["plat", "cab0", "board1"] && node[..3][..2] == ["plat", "cab0"];
    assert node[..3][..2][..1] == ["plat"];
    assert Dotted(["plat"]) == "plat" && Dotted(["plat", "cab0"]) == "plat.cab0";
    assert Dotted(["plat", "cab0", "board1"]) == "plat.cab0.board1";
    assert Dotted(node) == "plat.cab0.board1.node2";
  }

  /** atoi reads numbers to base 10. */
  lemma {:induction false} AtoiIsPositional(s: string)
    requires forall k :: 0 <= k < |s| ==> IsDigit(s[k])
    ensures forall k :: 0 <= k < |s| ==> XmlText.DigitOf(s[k], 10).Some?
    ensures ParseInt(s) == XmlText.Positional(s, 10)
  {
    if s != [] { AtoiIsPositional(s[..|s| - 1]); }
  }

  /** find_first_of and find_last_of; the length when there is none. */
  function FirstColon(s: string): (k: nat)
    ensures k <= |s| && (k < |s| ==> s[k] == ':') && forall j :: 0 <= j < k ==> s[j] != ':'
  {
    if s == [] || s[0] == ':' then 0 else 1 + FirstColon(s[1..])
  }

  function LastColon(s: string): (k: nat)
    ensures k <= |s| && (k < |s| ==> s[k] == ':' && forall j :: k < j < |s| ==> s[j] != ':')
  {
    if s == [] then 0
    else if s[|s| - 1] == ':' then |s| - 1
    else
      var k := LastColon(s[..|s| - 1]);
      if k == |s| - 1 then |s| else k
  }

  /** substr. */
  function Sub(s: string, from: nat, len: nat): string
    requires from <= |s|
  {
    if len <= |s| - from then s[from..from + len] else s[from..]
  }

  /** What initRouteTable takes from a line that has a colon past its start. */
  function RouteOf(s: string): Option<Route> {
    var pos1, pos2 := FirstColon(s), LastColon(s);
    if pos1 == |s| || pos2 == |s| || pos2 == 0 then None
    else Some(Route(Split(Sub(s, 0, pos1)), Atoi(Sub(s, pos1 + 1, pos2 - 1)), Atoi(s[pos2 + 1..])))
  }

  lemma {:induction false} FirstAt(a: string, rest: string)
    requires ':' !in a
    ensures FirstColon(a + (":" + rest)) == |a|
  {
    if a == [] {
      assert a + (":" + rest) == ":" + rest;
    } else {
      assert (a + (":" + rest))[1..] == a[1..] + (":" + rest);
      FirstAt(a[1..], rest);
    }
  }

  lemma {:induction false} LastAt(a: string, c: string)
    requires ':' !in c
    ensures LastColon(a + ":" + c) == |a|
  {
    var s := a + ":" + c;
    if c == [] {
      assert s == a + ":";
    } else {
      var init := c[..|c| - 1];
      assert s[..|s| - 1] == a + ":" + init && s[|s| - 1] == c[|c| - 1];
      LastAt(a, init);
    }
  }

  /** A written line is read back, although the second number is cut out with too long a length. */
  lemma LineBack(r: Route)
    requires CleanName(r.name)
    ensures RouteOf(LineOf(r)) == Some(r)
  {
    var a, b, c := Dotted(r.name), Digits(r.rtr), Digits(r.server);
    var s := LineOf(r);
    ColonsOf(r);
    SplitDotted(r.name);
    PartsOf(a, b, c);
    hide Digits, Dotted, Split, Atoi, FirstColon, LastColon, Sub, CleanName, RouteOf;
    var tail := Sub(s, |a| + 1, |a| + |b|);
    AtoiDigits(r.rtr, tail[|b|..]);
    AtoiDigits(r.server, []);
    assert c + [] == c;
    RouteIs(s, |a|, |a| + 1 + |b|, r);
  }

  lemma RouteIs(s: string, pos1: nat, pos2: nat, r: Route)
    requires FirstColon(s) == pos1 < |s| && LastColon(s) == pos2 && 0 < pos2 < |s|
    requires Split(Sub(s, 0, pos1)) == r.name && Atoi(Sub(s, pos1 + 1, pos2 - 1)) == r.rtr
        && Atoi(s[pos2 + 1..]) == r.server
    ensures RouteOf(s) == Some(r)
  {
    hide Split, Atoi, Sub, FirstColon, LastColon;
  }

  lemma ColonsOf(r: Route)
    requires CleanName(r.name)
    ensures var s, a, b := LineOf(r), Dotted(r.name), Digits(r.rtr);
            FirstColon(s) == |a| && LastColon(s) == |a| + 1 + |b| && |a| + 1 + |b| < |s|
  {
    var a, b, c := Dotted(r.name), Digits(r.rtr), Digits(r.server);
    DottedClean(r.name);
    AllDigits(r.rtr);
    AllDigits(r.server);
    hide Digits, Dotted;
    FirstAt(a, b + ":" + c);
    assert LineOf(r) == a + (":" + (b + ":" + c));
    LastAt(a + ":" + b, c);
  }

  /** The three cuts; the second one takes what follows its colon along, if there is room. */
  lemma PartsOf(a: string, b: string, c: string)
    requires b != []
    ensures var s := a + ":" + b + ":" + c;
            var tail := Sub(s, |a| + 1, |a| + |b|);
            && Sub(s, 0, |a|) == a && s[|a| + |b| + 2..] == c
            && |b| <= |tail| && tail == b + tail[|b|..] && (|b| < |tail| ==> tail[|b|] == ':')
  {
    var s := a + ":" + b + ":" + c;
    var rest := s[|a| + 1..];
    assert rest == b + ":" + c;
    var tail := Sub(s, |a| + 1, |a| + |b|);
    assert tail == if |a| + |b| <= |rest| then rest[..|a| + |b|] else rest;
    assert tail[..|b|] == b;
  }

  // ----- the file -----

  function TextOf(lines: seq<Route>): string {
    if lines == [] then "" else LineOf(lines[0]) + ("\n" + TextOf(lines[1..]))
  }

  function FirstBreak(s: string): (k: nat)
    ensures k <= |s| && (k < |s| ==> s[k] == '\n') && forall j :: 0 <= j < k ==> s[j] != '\n'
  {
    if s == [] || s[0] == '\n' then 0 else 1 + FirstBreak(s[1..])
  }

  /** The lines getline gives; what follows the last break is not one. None when a line has no colon past its start. */
  function RoutesOf(text: string): Option<seq<Route>>
    decreases |text|
  {
    var k := FirstBreak(text);
    if k == |text| then Some([])
    else
      var first, rest := RouteOf(text[..k]), RoutesOf(text[k + 1..]);
      if first.None? || rest.None? then None else Some([first.value] + rest.value)
  }

  lemma {:induction false} RoutesBack(lines: seq<Route>)
    requires forall k :: 0 <= k < |lines| ==> CleanName(lines[k].name)
    ensures RoutesOf(TextOf(lines)) == Some(lines)
  {
    if lines != [] {
      LineBack(lines[0]);
      LineClean(lines[0]);
      hide LineOf, RouteOf, RoutesOf, CleanName;
      RoutesBack(lines[1..]);
      OneLine(lines[0], TextOf(lines[1..]), lines[1..]);
      assert [lines[0]] + lines[1..] == lines;
    }
  }

  lemma OneLine(r: Route, t: string, rest: seq<Route>)
    requires '\n' !in LineOf(r) && RouteOf(LineOf(r)) == Some(r) && RoutesOf(t) == Some(rest)
    ensures RoutesOf(LineOf(r) + ("\n" + t)) == Some([r] + rest)
  {
    var s := LineOf(r);
    hide LineOf, RouteOf;
    var u := s + ("\n" + t);
    BreakAt(s, t);
    assert u[..|s|] == s && u[|s| + 1..] == t;
  }

  lemma LineClean(r: Route)
    requires CleanName(r.name)
    ensures '\n' !in LineOf(r)
  {
    DottedClean(r.name);
    AllDigits(r.rtr);
    AllDigits(r.server);
  }

  lemma {:induction false} BreakAt(s: string, t: string)
    requires '\n' !in s
    ensures FirstBreak(s + ("\n" + t)) == |s|
  {
    if s == [] {
      assert s + ("\n" + t) == "\n" + t;
    } else {
      assert (s + ("\n" + t))[1..] == s[1..] + ("\n" + t);
      BreakAt(s[1..], t);
    }
  }

  /** The writes of genRouteFile. */
  method WriteRoutes(lines: seq<Route>) returns (text: string)
    ensures text == TextOf(lines)
  {
    text := "";
    for i := 0 to |lines|
      invariant text == TextOf(lines[..i])
    {
      assert lines[..i + 1] == lines[..i] + [lines[i]];
      TextAppend(lines[..i], lines[i]);
      text := text + (LineOf(lines[i]) + "\n");
    }
    assert lines[..|lines|] == lines;
  }

  lemma {:induction false} TextAppend(lines: seq<Route>, r: Route)
    ensures TextOf(lines + [r]) == TextOf(lines) + (LineOf(r) + "\n")
  {
    hide LineOf;
    if lines == [] {
      assert TextOf([r]) == LineOf(r) + ("\n" + "");
    } else {
      TextAppend(lines[1..], r);
      assert (lines + [r])[1..] == lines[1..] + [r] && (lines + [r])[0] == lines[0];
    }
  }

  /** initRouteTable: the loop over the lines, later ones winning. */
  method ReadRouteTable(text: string) returns (table: Option<map<Name, nat>>)
    ensures RoutesOf(text).None? ==> table == None
    ensures RoutesOf(text).Some? ==> table == Some(TableOf(RoutesOf(text).value))
  {
    hide RoutesOf, RouteOf, TableOf;
    ghost var lines: seq<Route> := [];
    var sofar: map<Name, nat> := map[];
    var p := 0;
    NoLines();
    assert text[0..] == text && forall more: seq<Route> :: lines + more == more;
    while FirstBreak(text[p..]) < |text| - p
      invariant p <= |text| && sofar == TableOf(lines)
      invariant RoutesOf(text) == After(lines, RoutesOf(text[p..]))
      decreases |text| - p
    {
      var k := FirstBreak(text[p..]);
      var line := RouteOf(text[p..][..k]);
      NextRoute(text, p, lines);
      if line.None? { return None; }
      TableOneMore(lines, line.value);
      lines := lines + [line.value];
      sofar := sofar[line.value.name := AppId(line.value.rtr, line.value.server)];
      p := p + k + 1;
    }
    NoRoutes(text[p..]);
    assert lines + [] == lines;
    return Some(sofar);
  }

  lemma NoLines()
    ensures TableOf([]) == map[]
  {
  }

  lemma NoRoutes(text: string)
    requires FirstBreak(text) == |text|
    ensures RoutesOf(text) == Some([])
  {
  }

  function After(lines: seq<Route>, more: Option<seq<Route>>): Option<seq<Route>> {
    if more.None? then None else Some(lines + more.value)
  }

  lemma NextRoute(text: string, p: nat, lines: seq<Route>)
    requires p <= |text| && FirstBreak(text[p..]) < |text| - p
    ensures var k := FirstBreak(text[p..]);
            var line := RouteOf(text[p..][..k]);
            After(lines, RoutesOf(text[p..]))
              == if line.None? then None else After(lines + [line.value], RoutesOf(text[p + k + 1..]))
  {
    hide RouteOf;
    var k := FirstBreak(text[p..]);
    assert text[p..][k + 1..] == text[p + k + 1..];
    var line, rest := RouteOf(text[p..][..k]), RoutesOf(text[p + k + 1..]);
    if line.Some? && rest.Some? { assert lines + ([line.value] + rest.value) == (lines + [line.value]) + rest.value; }
  }

  /** The file of a site, written by the generator and read by a router: the table of the site. */
  method SiteFile(s: Site) returns (text: string, table: Option<map<Name, nat>>)
    requires RouteFile.Valid(s)
    ensures table == Some(Table(s))
  {
    var lines := GenRouteFile(s);
    text := WriteRoutes(lines);
    RouteFileBack(s);
    table := ReadRouteTable(text);
  }

  /** The same lines. */
  lemma RouteFileBack(s: Site)
    requires RouteFile.Valid(s)
    ensures RoutesOf(TextOf(RouteLines(s, TreeRouting.Boards(s.k)))) == Some(RouteLines(s, TreeRouting.Boards(s.k)))
  {
    SiteNamesClean(s, TreeRouting.Boards(s.k));
    RoutesBack(RouteLines(s, TreeRouting.Boards(s.k)));
  }

  lemma TaggedClean(tag: string, n: nat)
    requires Clean(tag)
    ensures Clean(Tagged(tag, n))
  {
    AllDigits(n);
  }

  lemma ServerClean(s: Site, i: nat, pos: nat)
    requires RouteFile.Valid(s)
    ensures CleanName(ServerName(s, i, pos))
  {
    TaggedClean("cab", CabOf(s, i));
    TaggedClean("board", SlotOf(s, i));
    if pos != 0 { TaggedClean("node", pos - 1); }
  }

  lemma {:induction false} BoardClean(s: Site, i: nat, m: nat)
    requires RouteFile.Valid(s)
    ensures forall k :: 0 <= k < |BoardLines(s, i, m)| ==> CleanName(BoardLines(s, i, m)[k].name)
  {
    if m != 0 {
      BoardClean(s, i, m - 1);
      ServerClean(s, i, m - 1);
    }
  }

  lemma {:induction false} SiteNamesClean(s: Site, m: nat)
    requires RouteFile.Valid(s)
    ensures forall k :: 0 <= k < |RouteLines(s, m)| ==> CleanName(RouteLines(s, m)[k].name)
  {
    if m != 0 {
      SiteNamesClean(s, m - 1);
      BoardClean(s, m - 1, s.k.perBoard + 1);
    }
  }
}
