/** Algorithm names: templates applied to algorithms, "template(arg,...)", and the parser that takes them
    apart again. */
module NameParser {
  import opened Options

  const MAX_ATTRS := 32

  predicate IsDigit(c: char) { '0' <= c <= '9' }

  /** isalnum of the kernel's character table, which knows the Latin-1 letters. */
  predicate IsAlnum(c: char) {
    IsDigit(c) || 'A' <= c <= 'Z' || 'a' <= c <= 'z' || ('\U{C0}' <= c <= '\U{FF}' && c != '\U{D7}' && c != '\U{F7}')
  }

  predicate IsWordChar(c: char) { IsAlnum(c) || c == '-' || c == '_' }

  /** A registered algorithm, or an instance of a template. */
  datatype Name = Plain(word: string) | Instance(template: string, args: Args)

  datatype Args = Last(name: Name) | More(name: Name, rest: Args)

  /** The printers: "%s(%s)", and "authenc(%s,%s)" for two arguments. */
  function Print(n: Name): string {
    match n
    case Plain(word) => word
    case Instance(template, args) => template + "(" + PrintArgs(args) + ")"
  }

  function PrintArgs(args: Args): string {
    match args
    case Last(n) => Print(n)
    case More(n, rest) => Print(n) + "," + PrintArgs(rest)
  }

  predicate IsWord(w: string) { w != "" && forall i :: 0 <= i < |w| ==> IsWordChar(w[i]) }

  predicate WellFormed(n: Name) {
    match n
    case Plain(word) => IsWord(word)
    case Instance(template, args) => IsWord(template) && ArgsWellFormed(args)
  }

  predicate ArgsWellFormed(args: Args) {
    match args
    case Last(n) => WellFormed(n)
    case More(n, rest) => WellFormed(n) && ArgsWellFormed(rest)
  }

  function Count(args: Args): nat {
    match args
    case Last(_) => 1
    case More(_, rest) => 1 + Count(rest)
  }

  /** An attribute: the name of an algorithm, or digits. */
  datatype Attr = Alg(text: string) | Num(text: string)

  predicate Digits(s: string) { forall i :: 0 <= i < |s| ==> IsDigit(s[i]) }

  function AttrOf(n: Name): Attr { if n.Plain? && Digits(n.word) then Num(n.word) else Alg(Print(n)) }

  function AttrsOf(args: Args): seq<Attr> {
    match args
    case Last(n) => [AttrOf(n)]
    case More(n, rest) => [AttrOf(n)] + AttrsOf(rest)
  }

  datatype Parsed = Parsed(template: string, attrs: seq<Attr>)

  /** Where the word that starts at p ends. */
  function WordEnd(s: string, p: nat): (e: nat)
    ensures p <= |s| ==> p <= e <= |s|
    decreases if p < |s| then |s| - p else 0
  {
    if p < |s| && IsWordChar(s[p]) then WordEnd(s, p + 1) else p
  }

  /** The closing parenthesis of the one before p, if `depth` others are open. */
  function Close(s: string, p: nat, depth: nat): (c: Option<nat>)
    ensures c.Some? ==> p <= c.value < |s| && s[c.value] == ')'
    decreases if p < |s| then |s| - p else 0
  {
    if p >= |s| then None
    else if s[p] == '(' then Close(s, p + 1, depth + 1)
    else if s[p] == ')' then (if depth == 0 then Some(p) else Close(s, p + 1, depth - 1))
    else Close(s, p + 1, depth)
  }

  /** Where the argument that starts at p ends. */
  function ArgEnd(s: string, p: nat): (e: Option<nat>)
    requires p <= |s|
    ensures e.Some? ==> p <= e.value <= |s|
  {
    var w := WordEnd(s, p);
    if w < |s| && s[w] == '(' then
      var c := Close(s, w + 1, 0);
      if c.None? then None else Some(c.value + 1)
    else Some(w)
  }

  function ArgAttr(s: string, p: nat, e: nat): Attr
    requires p <= e <= |s|
  {
    if Digits(s[p..e]) then Num(s[p..e]) else Alg(s[p..e])
  }

  /** The arguments from p on, i of them being there already. */
  function ParseArgs(s: string, p: nat, i: nat): Option<seq<Attr>>
    requires p <= |s|
    decreases |s| - p
  {
    var e := ArgEnd(s, p);
    if e.None? || e.value == p || i + 1 >= MAX_ATTRS || e.value == |s| then None
    else
      var attr := ArgAttr(s, p, e.value);
      if s[e.value] == ')' then Some([attr])
      else if s[e.value] != ',' then None
      else
        var more := ParseArgs(s, e.value + 1, i + 1);
        if more.None? then None else Some([attr] + more.value)
  }

  function Parse(s: string): Option<Parsed> {
    var w := WordEnd(s, 0);
    if w == 0 || w == |s| || s[w] != '(' then None
    else
      var attrs := ParseArgs(s, w + 1, 0);
      if attrs.None? then None else Some(Parsed(s[..w], attrs.value))
  }

  /** text stands in s at p. */
  predicate At(s: string, p: nat, text: string) { p + |text| <= |s| && s[p..p + |text|] == text }

  lemma AtSplit(s: string, p: nat, a: string, b: string)
    ensures At(s, p, a + b) <==> At(s, p, a) && At(s, p + |a|, b)
  {
    if At(s, p, a + b) {
      assert s[p..p + |a|] == (a + b)[..|a|] && s[p + |a|..p + |a| + |b|] == (a + b)[|a|..];
    }
    if At(s, p, a) && At(s, p + |a|, b) {
      assert s[p..p + |a + b|] == s[p..p + |a|] + s[p + |a|..p + |a| + |b|];
    }
  }

  lemma {:induction false} WordSkipped(s: string, p: nat, w: string)
    requires At(s, p, w) && (forall i :: 0 <= i < |w| ==> IsWordChar(w[i]))
    ensures WordEnd(s, p) == WordEnd(s, p + |w|)
    decreases |w|
  {
    if w != "" {
      assert s[p] == w[0];
      assert At(s, p + 1, w[1..]);
      WordSkipped(s, p + 1, w[1..]);
    }
  }

  lemma {:induction false} PlainSkipped(s: string, p: nat, w: string, depth: nat)
    requires At(s, p, w) && forall i :: 0 <= i < |w| ==> IsWordChar(w[i])
    ensures Close(s, p, depth) == Close(s, p + |w|, depth)
    decreases |w|
  {
    if w != "" {
      assert s[p] == w[0] && IsWordChar(w[0]);
      assert At(s, p + 1, w[1..]);
      PlainSkipped(s, p + 1, w[1..], depth);
    }
  }

  /** A printed name is balanced: the search for a closing parenthesis passes over it. */
  lemma {:induction false} NameSkipped(s: string, p: nat, n: Name, depth: nat)
    requires WellFormed(n) && At(s, p, Print(n))
    ensures Close(s, p, depth) == Close(s, p + |Print(n)|, depth)
    decreases n, 0
  {
    hide IsWordChar, PrintArgs;
    match n
    case Plain(word) => PlainSkipped(s, p, word, depth);
    case Instance(template, args) => {
      InstanceAt(s, p, template, args);
      PlainSkipped(s, p, template, depth);
      var q := p + |template|;
      ArgsSkipped(s, q + 1, args, depth + 1);
    }
  }

  lemma InstanceAt(s: string, p: nat, template: string, args: Args)
    requires At(s, p, template + "(" + PrintArgs(args) + ")")
    ensures var q := p + |template|;
            && At(s, p, template) && q < |s| && s[q] == '('
            && At(s, q + 1, PrintArgs(args)) && q + 1 + |PrintArgs(args)| < |s| && s[q + 1 + |PrintArgs(args)|] == ')'
  {
    hide PrintArgs;
    var a := PrintArgs(args);
    AtSplit(s, p, template + "(" + a, ")");
    AtSplit(s, p, template + "(", a);
    AtSplit(s, p, template, "(");
  }

  lemma {:induction false} ArgsSkipped(s: string, p: nat, args: Args, depth: nat)
    requires ArgsWellFormed(args) && At(s, p, PrintArgs(args))
    ensures Close(s, p, depth) == Close(s, p + |PrintArgs(args)|, depth)
    decreases args, 1
  {
    hide IsWordChar, Print;
    match args
    case Last(n) => NameSkipped(s, p, n, depth);
    case More(n, rest) => {
      MoreAt(s, p, n, rest);
      NameSkipped(s, p, n, depth);
      ArgsSkipped(s, p + |Print(n)| + 1, rest, depth);
    }
  }

  lemma MoreAt(s: string, p: nat, n: Name, rest: Args)
    requires At(s, p, Print(n) + "," + PrintArgs(rest))
    ensures var q := p + |Print(n)|;
            At(s, p, Print(n)) && q < |s| && s[q] == ',' && At(s, q + 1, PrintArgs(rest))
  {
    hide Print, PrintArgs;
    AtSplit(s, p, Print(n) + ",", PrintArgs(rest));
    AtSplit(s, p, Print(n), ",");
  }

  lemma WordStops(s: string, p: nat)
    requires p < |s| && (s[p] == ',' || s[p] == ')' || s[p] == '(')
    ensures WordEnd(s, p) == p
  {
  }

  lemma CloseHere(s: string, p: nat)
    requires p < |s| && s[p] == ')'
    ensures Close(s, p, 0) == Some(p)
  {
  }

  /** A printed argument ends where the parser thinks it does, and it is read as what was printed. */
  lemma ArgFound(s: string, p: nat, n: Name)
    requires WellFormed(n) && At(s, p, Print(n))
    requires p + |Print(n)| < |s| && (s[p + |Print(n)|] == ',' || s[p + |Print(n)|] == ')')
    ensures ArgEnd(s, p) == Some(p + |Print(n)|) && |Print(n)| > 0
    ensures ArgAttr(s, p, p + |Print(n)|) == AttrOf(n)
  {
    hide IsWordChar, Close, WordEnd, PrintArgs, Digits;
    WordStops(s, p + |Print(n)|);
    match n
    case Plain(word) => WordSkipped(s, p, word);
    case Instance(template, args) => {
      InstanceAt(s, p, template, args);
      WordSkipped(s, p, template);
      WordStops(s, p + |template|);
      ArgsSkipped(s, p + |template| + 1, args, 0);
      CloseHere(s, p + |Print(n)| - 1);
      NotDigits(n);
    }
  }

  lemma NotDigits(n: Name)
    requires n.Instance?
    ensures !Digits(Print(n))
  {
    assert Print(n)[|n.template|] == '(';
  }

  lemma {:induction false} ArgsFound(s: string, p: nat, args: Args, i: nat)
    requires ArgsWellFormed(args) && At(s, p, PrintArgs(args)) && i + Count(args) < MAX_ATTRS
    requires p + |PrintArgs(args)| < |s| && s[p + |PrintArgs(args)|] == ')'
    ensures ParseArgs(s, p, i) == Some(AttrsOf(args))
    decreases args
  {
    hide ArgEnd, ArgAttr, AttrOf, Print;
    match args
    case Last(n) => ArgFound(s, p, n);
    case More(n, rest) => {
      MoreAt(s, p, n, rest);
      ArgFound(s, p, n);
      ArgsFound(s, p + |Print(n)| + 1, rest, i + 1);
    }
  }

  /** The parser undoes the printers at any nesting depth: it finds the template and the printed arguments in
      order, for fewer than MAX_ATTRS arguments. */
  lemma ParsePrint(n: Name)
    requires WellFormed(n) && n.Instance? && Count(n.args) < MAX_ATTRS
    ensures Parse(Print(n)) == Some(Parsed(n.template, AttrsOf(n.args)))
  {
    hide ParseArgs;
    var s := Print(n);
    assert At(s, 0, s);
    InstanceAt(s, 0, n.template, n.args);
    WordSkipped(s, 0, n.template);
    ArgsFound(s, |n.template| + 1, n.args, 0);
  }

  /** With identifiers that are not all digits, the attributes are exactly the printed names. */
  lemma {:induction false} AllAlgs(args: Args, k: nat)
    requires NoNumbers(args) && k < Count(args)
    ensures |AttrsOf(args)| == Count(args) && AttrsOf(args)[k] == Alg(Print(Nth(args, k)))
    decreases args
  {
    match args
    case Last(n) => {}
    case More(n, rest) => {
      AllAlgs(rest, if k > 0 then k - 1 else 0);
    }
  }

  predicate NoNumbers(args: Args) {
    match args
    case Last(n) => n.Plain? ==> !Digits(n.word)
    case More(n, rest) => (n.Plain? ==> !Digits(n.word)) && NoNumbers(rest)
  }

  function Nth(args: Args, k: nat): Name
    requires k < Count(args)
  {
    match args
    case Last(n) => n
    case More(n, rest) => if k == 0 then n else Nth(rest, k - 1)
  }

  /** As many arguments as there are slots are refused. */
  lemma {:induction false} TooMany(s: string, p: nat, args: Args, i: nat)
    requires ArgsWellFormed(args) && At(s, p, PrintArgs(args)) && i + Count(args) >= MAX_ATTRS
    requires p + |PrintArgs(args)| < |s| && s[p + |PrintArgs(args)|] == ')'
    ensures ParseArgs(s, p, i) == None
    decreases args
  {
    hide ArgEnd, ArgAttr, Print;
    match args
    case Last(n) => ArgFound(s, p, n);
    case More(n, rest) => {
      MoreAt(s, p, n, rest);
      ArgFound(s, p, n);
      TooMany(s, p + |Print(n)| + 1, rest, i + 1);
    }
  }

  function JoinTexts(attrs: seq<Attr>): string {
    if attrs == [] then "" else if |attrs| == 1 then attrs[0].text else attrs[0].text + "," + JoinTexts(attrs[1..])
  }

  /** Conversely, what the parser reports is what the text says, up to the closing parenthesis. */
  lemma {:induction false} ArgsFromText(s: string, p: nat, i: nat)
    requires p <= |s| && ParseArgs(s, p, i).Some?
    ensures var attrs := ParseArgs(s, p, i).value;
            attrs != [] && i + |attrs| < MAX_ATTRS && At(s, p, JoinTexts(attrs) + ")")
    decreases |s| - p
  {
    hide ArgEnd;
    var e := ArgEnd(s, p).value;
    var text := s[p..e];
    assert At(s, p, text);
    if s[e] == ')' {
      assert At(s, e, ")");
      AtSplit(s, p, text, ")");
    } else {
      ArgsFromText(s, e + 1, i + 1);
      var more := ParseArgs(s, e + 1, i + 1).value;
      var attrs := [ArgAttr(s, p, e)] + more;
      assert attrs[1..] == more;
      assert At(s, e, ",");
      AtSplit(s, p, text, ",");
      AtSplit(s, p, text + ",", JoinTexts(more) + ")");
      assert (text + ",") + (JoinTexts(more) + ")") == JoinTexts(attrs) + ")";
    }
  }

  /** The argument loop's state as cryptomgr_schedule_probe keeps it. */
  method ScanWord(s: string, p: nat) returns (e: nat, notnum: bool)
    requires p <= |s|
    ensures e == WordEnd(s, p) && p <= e <= |s| && (notnum <==> !Digits(s[p..e]))
  {
    e, notnum := p, false;
    while e < |s| && IsWordChar(s[e])
      invariant p <= e <= |s| && WordEnd(s, p) == WordEnd(s, e) && (notnum <==> !Digits(s[p..e]))
    {
      OneMoreDigit(s, p, e);
      notnum := notnum || !IsDigit(s[e]);
      e := e + 1;
    }
  }

  lemma OneMoreDigit(s: string, p: nat, e: nat)
    requires p <= e < |s|
    ensures Digits(s[p..e + 1]) <==> Digits(s[p..e]) && IsDigit(s[e])
  {
    var t := s[p..e + 1];
    assert t[..e - p] == s[p..e] && t[e - p] == s[e];
    if Digits(t) {
      assert forall i :: 0 <= i < e - p ==> s[p..e][i] == t[i];
    }
    if Digits(s[p..e]) {
      assert forall i :: 0 <= i < e - p ==> t[i] == s[p..e][i];
    }
  }

  /** The inner loop over a nested argument. */
  method SkipNested(s: string, open: nat) returns (close: Option<nat>)
    requires open < |s|
    ensures close == Close(s, open + 1, 0)
  {
    var p, recursion := open, 0;
    while true
      invariant open <= p < |s| && recursion >= 0 && Close(s, open + 1, 0) == Close(s, p + 1, recursion)
      decreases |s| - p
    {
      p := p + 1;
      if p == |s| {
        return None;
      }
      if s[p] == '(' {
        recursion := recursion + 1;
      } else if s[p] == ')' {
        if recursion == 0 {
          return Some(p);
        }
        recursion := recursion - 1;
      }
    }
  }

  /** The arguments found so far and those to come. */
  function Joined(attrs: seq<Attr>, more: Option<seq<Attr>>): Option<seq<Attr>> {
    if more.None? then None else Some(attrs + more.value)
  }

  /** One turn of the argument loop. */
  lemma ArgsStep(s: string, p: nat, i: nat, attrs: seq<Attr>)
    requires p <= |s|
    ensures var e := ArgEnd(s, p); var all := Joined(attrs, ParseArgs(s, p, i));
            if e.None? || e.value == p || i + 1 >= MAX_ATTRS then all == None
            else
              var found := attrs + [ArgAttr(s, p, e.value)];
              if e.value < |s| && s[e.value] == ')' then all == Some(found)
              else if e.value == |s| || s[e.value] != ',' then all == None
              else all == Joined(found, ParseArgs(s, e.value + 1, i + 1))
  {
    hide ArgEnd, ArgAttr;
    var e := ArgEnd(s, p);
    if e.Some? && e.value < |s| {
      var rest := ParseArgs(s, e.value + 1, i + 1);
      if rest.Some? {
        var a := ArgAttr(s, p, e.value);
        assert attrs + ([a] + rest.value) == attrs + [a] + rest.value;
      }
    }
  }

  lemma NoneFound(more: Option<seq<Attr>>)
    ensures Joined([], more) == more
  {
    if more.Some? {
      assert [] + more.value == more.value;
    }
  }

  /** cryptomgr_schedule_probe's parser. */
  method ParseName(s: string) returns (r: Option<Parsed>)
    ensures r == Parse(s)
  {
    hide ArgEnd, WordEnd, Close, Digits, ParseArgs, Joined, ArgAttr;
    var p, notnum := ScanWord(s, 0);
    var template := s[..p];
    if p == 0 || p == |s| || s[p] != '(' {
      return None;
    }
    ghost var all := ParseArgs(s, p + 1, 0);
    var attrs: seq<Attr>, i := [], 0;
    NoneFound(all);
    while true
      invariant p + 1 <= |s| && i == |attrs| && all == Joined(attrs, ParseArgs(s, p + 1, i))
      decreases |s| - p
    {
      p := p + 1;
      var name := p;
      ArgsStep(s, p, i, attrs);
      var e := FindEnd(s, p);
      if e.None? || e.value == name || i + 1 >= MAX_ATTRS {
        return None;
      }
      p := e.value;
      attrs := attrs + [ArgAttr(s, name, p)];
      i := i + 1;
      if p < |s| && s[p] == ')' {
        return Some(Parsed(template, attrs));
      }
      if p == |s| || s[p] != ',' {
        return None;
      }
    }
  }

  /** One argument: a word, and a nested argument list behind it if there is one. */
  method FindEnd(s: string, p: nat) returns (e: Option<nat>)
    requires p <= |s|
    ensures e == ArgEnd(s, p)
  {
    hide WordEnd, Close, Digits;
    var w, notnum := ScanWord(s, p);
    if w < |s| && s[w] == '(' {
      var close := SkipNested(s, w);
      if close.None? {
        return None;
      }
      return Some(close.value + 1);
    }
    return Some(w);
  }
}
