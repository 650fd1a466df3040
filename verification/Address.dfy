/** Addresses of the form  name [ / subject ] [ ; options ]  and what parseAddress makes
    of them.  Decoding the options text is a parameter. */
module Address {
  import opened Common

  /** The white space that strings.TrimSpace removes. */
  predicate IsSpace(c: char) {
    c in {'\t', '\n', '\U{0B}', '\U{0C}', '\r', ' ', '\U{85}', '\U{A0}', '\U{1680}', '\U{2028}', '\U{2029}',
          '\U{202F}', '\U{205F}', '\U{3000}'}
    || '\U{2000}' <= c <= '\U{200A}'
  }

  /** Among the ASCII characters, the blank and the five controls from tab to carriage return. */
  lemma AsciiSpaces(c: char)
    requires c < '\U{80}'
    ensures IsSpace(c) <==> c == ' ' || '\t' <= c <= '\r'
  {
  }

  function TrimLeft(s: string): string { if s != [] && IsSpace(s[0]) then TrimLeft(s[1..]) else s }

  function TrimRight(s: string): string {
    if s != [] && IsSpace(s[|s| - 1]) then TrimRight(s[..|s| - 1]) else s
  }

  function TrimSpace(s: string): string { TrimRight(TrimLeft(s)) }

  predicate Trimmed(s: string) { s != [] ==> !IsSpace(s[0]) && !IsSpace(s[|s| - 1]) }

  /** strings.Split on one character. */
  function Split(s: string, c: char): (parts: seq<string>)
    ensures |parts| >= 1
  {
    if s == [] then [[]]
    else
      var rest := Split(s[1..], c);
      if s[0] == c then [[]] + rest else [[s[0]] + rest[0]] + rest[1..]
  }

  datatype Parts = Parts(name: string, subject: string, options: string)

  /** parseAddress up to the decoding of the options. */
  function ParseText(address: string): Parts {
    var kv := Split(address, ';');
    var options := if |kv| == 2 then kv[1] else "{}";
    var path := Split(kv[0], '/');
    var subject := if |path| == 2 then TrimSpace(path[1]) else "";
    var name := TrimSpace(path[0]);
    if |name| >= 2 && name[0] == '{' then Parts("", subject, name) else Parts(name, subject, options)
  }

  // ----- splitting -----

  lemma {:induction false} SplitAlone(s: string, c: char)
    requires c !in s
    ensures Split(s, c) == [s]
  {
    if s != [] {
      SplitAlone(s[1..], c);
      assert [s[0]] + s[1..] == s;
    }
  }

  lemma {:induction false} SplitFirst(a: string, b: string, c: char)
    requires c !in a
    ensures Split(a + [c] + b, c) == [a] + Split(b, c)
  {
    var s := a + [c] + b;
    if a == [] {
      assert s[1..] == b;
    } else {
      SplitFirst(a[1..], b, c);
      assert s[1..] == a[1..] + [c] + b;
      assert [a[0]] + a[1..] == a;
    }
  }

  function Join(parts: seq<string>, c: char): string
    requires |parts| >= 1
  {
    if |parts| == 1 then parts[0] else parts[0] + [c] + Join(parts[1..], c)
  }

  /** Joining the parts gives the string back, no part has the separator, and there is one
      part unless the string has it. */
  lemma {:induction false} SplitThenJoin(s: string, c: char)
    ensures Join(Split(s, c), c) == s
    ensures forall k :: 0 <= k < |Split(s, c)| ==> c !in Split(s, c)[k]
    ensures |Split(s, c)| == 1 <==> c !in s
  {
    if s != [] {
      SplitThenJoin(s[1..], c);
      var rest := Split(s[1..], c);
      var parts := Split(s, c);
      if s[0] == c {
        assert parts[1..] == rest;
      } else {
        assert parts[1..] == rest[1..];
      }
    }
  }

  // ----- trimming -----

  lemma {:induction false} TrimLeftSpaces(pad: string, s: string)
    requires forall i :: 0 <= i < |pad| ==> IsSpace(pad[i])
    requires s != [] ==> !IsSpace(s[0])
    ensures TrimLeft(pad + s) == s
  {
    if pad == [] {
      assert pad + s == s;
    } else {
      TrimLeftSpaces(pad[1..], s);
      assert (pad + s)[1..] == pad[1..] + s;
    }
  }

  lemma {:induction false} TrimRightSpaces(s: string, pad: string)
    requires forall i :: 0 <= i < |pad| ==> IsSpace(pad[i])
    requires s != [] ==> !IsSpace(s[|s| - 1])
    ensures TrimRight(s + pad) == s
  {
    if pad == [] {
      assert s + pad == s;
    } else {
      TrimRightSpaces(s, pad[..|pad| - 1]);
      assert (s + pad)[..|s + pad| - 1] == s + pad[..|pad| - 1];
    }
  }

  lemma {:induction false} TrimLeftAllSpaces(pad: string)
    requires forall i :: 0 <= i < |pad| ==> IsSpace(pad[i])
    ensures TrimLeft(pad) == []
  {
    if pad != [] { TrimLeftAllSpaces(pad[1..]); }
  }

  predicate AllSpaces(pad: string) { forall i :: 0 <= i < |pad| ==> IsSpace(pad[i]) }

  /** Padding a trimmed text with white space changes nothing. */
  lemma TrimPadded(before: string, s: string, after: string)
    requires AllSpaces(before) && AllSpaces(after) && Trimmed(s)
    ensures TrimSpace(before + s + after) == s
  {
    if s == [] {
      assert before + s + after == before + after;
      TrimLeftAllSpaces(before + after);
    } else {
      assert before + s + after == before + (s + after);
      TrimLeftSpaces(before, s + after);
      TrimRightSpaces(s, after);
    }
  }

  lemma {:induction false} TrimLeftIsSuffix(s: string)
    ensures |TrimLeft(s)| <= |s| && TrimLeft(s) == s[|s| - |TrimLeft(s)|..]
    ensures TrimLeft(s) != [] ==> !IsSpace(TrimLeft(s)[0])
  {
    if s != [] && IsSpace(s[0]) { TrimLeftIsSuffix(s[1..]); }
  }

  lemma {:induction false} TrimRightIsPrefix(s: string)
    ensures TrimRight(s) <= s
    ensures TrimRight(s) != [] ==> !IsSpace(TrimRight(s)[|TrimRight(s)| - 1])
  {
    if s != [] && IsSpace(s[|s| - 1]) { TrimRightIsPrefix(s[..|s| - 1]); }
  }

  /** The result is trimmed, and no longer, and has no other characters. */
  lemma TrimIsTrimmed(s: string)
    ensures Trimmed(TrimSpace(s)) && |TrimSpace(s)| <= |s|
    ensures forall c :: c in TrimSpace(s) ==> c in s
  {
    TrimLeftIsSuffix(s);
    var left := TrimLeft(s);
    TrimRightIsPrefix(left);
    forall c | c in TrimSpace(s) ensures c in s { assert c in left; }
  }

  // ----- printing and parsing -----

  function Print(p: Parts): string { p.name + ['/'] + p.subject + [';'] + p.options }

  predicate Braced(name: string) { |name| >= 2 && name[0] == '{' }

  /** The parts that survive printing and parsing. */
  predicate Plain(p: Parts) {
    && Trimmed(p.name) && Trimmed(p.subject)
    && ';' !in p.name && '/' !in p.name && ';' !in p.subject && '/' !in p.subject
    && ';' !in p.options && !Braced(p.name)
  }

  /** White space around the name and the subject is immaterial. */
  lemma ParsePadded(p: Parts, a: string, b: string, c: string, d: string)
    requires Plain(p) && AllSpaces(a) && AllSpaces(b) && AllSpaces(c) && AllSpaces(d)
    ensures ParseText(a + p.name + b + ['/'] + (c + p.subject + d) + [';'] + p.options) == p
  {
    var name, subject := a + p.name + b, c + p.subject + d;
    var front := name + ['/'] + subject;
    assert ';' !in front && '/' !in name && '/' !in subject;
    SplitFirst(front, p.options, ';');
    SplitAlone(p.options, ';');
    SplitFirst(name, subject, '/');
    SplitAlone(subject, '/');
    TrimPadded(a, p.name, b);
    TrimPadded(c, p.subject, d);
  }

  lemma Unpadded(s: string)
    ensures "" + s + "" == s
  {
  }

  lemma ParsePlain(p: Parts)
    requires Plain(p)
    ensures ParseText(Print(p)) == p
  {
    Unpadded(p.name);
    Unpadded(p.subject);
    ParsePadded(p, "", "", "", "");
  }

  lemma ParsedName(address: string)
    ensures var p := ParseText(address);
            && Trimmed(p.name) && Trimmed(p.subject) && !Braced(p.name)
            && ';' !in p.name && '/' !in p.name && ';' !in p.subject && '/' !in p.subject
  {
    SplitThenJoin(address, ';');
    var front := Split(address, ';')[0];
    SplitThenJoin(front, '/');
    var path := Split(front, '/');
    PartIsWithin(front, '/', 0);
    TrimIsTrimmed(path[0]);
    if |path| == 2 {
      PartIsWithin(front, '/', 1);
      TrimIsTrimmed(path[1]);
    }
  }

  lemma {:induction false} PartIsWithin(s: string, c: char, k: nat)
    requires k < |Split(s, c)|
    ensures forall x :: x in Split(s, c)[k] ==> x in s
  {
    if s != [] {
      var rest := Split(s[1..], c);
      if s[0] == c {
        if k > 0 { PartIsWithin(s[1..], c, k - 1); }
      } else {
        PartIsWithin(s[1..], c, k);
      }
    }
  }

  lemma OnlyPlainSurvives(p: Parts)
    requires ParseText(Print(p)) == p
    ensures Plain(p)
  {
    ParsedName(Print(p));
    var front := p.name + ['/'] + p.subject;
    SplitFirst(front, p.options, ';');
    SplitThenJoin(p.options, ';');
    SplitFirst(p.name, p.subject, '/');
    SplitAlone(p.subject, '/');
    TrimPadded("", p.name, "");
    Unpadded(p.name);
    assert |Split(Print(p), ';')| != 2 ==> p.options == "{}";
  }

  /** THE ROUND TRIP.  Printing and parsing give back all three parts exactly when the name
      and the subject are trimmed and free of both separators, the options text is free of
      ';', and the name does not look like options. */
  lemma RoundTripIff(p: Parts)
    ensures ParseText(Print(p)) == p <==> Plain(p)
  {
    if Plain(p) { ParsePlain(p); }
    if ParseText(Print(p)) == p { OnlyPlainSurvives(p); }
  }

  /** The subject may be left out, and the options with it. */
  lemma WithoutSubject(p: Parts)
    requires Plain(p)
    ensures ParseText(p.name) == Parts(p.name, "", "{}")
    ensures ParseText(p.name + [';'] + p.options) == Parts(p.name, "", p.options)
  {
    SplitAlone(p.name, ';');
    SplitAlone(p.name, '/');
    SplitFirst(p.name, p.options, ';');
    SplitAlone(p.options, ';');
    TrimPadded("", p.name, "");
    Unpadded(p.name);
  }

  /** Or the options alone. */
  lemma WithoutOptions(p: Parts)
    requires Plain(p)
    ensures ParseText(p.name + ['/'] + p.subject) == Parts(p.name, p.subject, "{}")
  {
    var front := p.name + ['/'] + p.subject;
    SplitAlone(front, ';');
    SplitFirst(p.name, p.subject, '/');
    SplitAlone(p.subject, '/');
    TrimPadded("", p.name, "");
    TrimPadded("", p.subject, "");
    Unpadded(p.name);
    Unpadded(p.subject);
  }

  /** One separator too many, and what follows the first is dropped without an error. */
  lemma ExtraSeparators(name: string, rest: string)
    requires Trimmed(name) && ';' !in name && '/' !in name && !Braced(name)
    ensures ';' in rest ==> ParseText(name + [';'] + rest) == Parts(name, "", "{}")
    ensures '/' in rest && ';' !in rest ==> ParseText(name + ['/'] + rest) == Parts(name, "", "{}")
  {
    TrimPadded("", name, "");
    Unpadded(name);
    SplitFirst(name, rest, ';');
    SplitThenJoin(rest, ';');
    SplitAlone(name, '/');
    if ';' !in rest { SplitAlone(name + ['/'] + rest, ';'); }
    SplitFirst(name, rest, '/');
    SplitThenJoin(rest, '/');
  }

  lemma OptionsAfterSemicolon(options: string)
    requires ';' !in options
    ensures ParseText([';'] + options) == Parts("", "", options)
  {
    var empty: string := [];
    assert empty + [';'] + options == [';'] + options;
    SplitFirst(empty, options, ';');
    SplitAlone(options, ';');
    SplitAlone(empty, '/');
  }

  lemma OptionsWithoutSlash(options: string)
    requires Trimmed(options) && Braced(options) && ';' !in options && '/' !in options
    ensures ParseText(options) == Parts("", "", options)
  {
    SplitAlone(options, ';');
    SplitAlone(options, '/');
    TrimPadded("", options, "");
    Unpadded(options);
  }

  lemma OptionsWithSlash(options: string)
    requires ';' !in options && '/' in options
    ensures ParseText(options).options != options
  {
    SplitAlone(options, ';');
    SplitThenJoin(options, '/');
    var path := Split(options, '/');
    assert |path[0]| < |options|;
    TrimIsTrimmed(path[0]);
  }

  /** Options given alone read the same with and without the leading semicolon exactly
      when they contain no '/'. */
  lemma OptionsAloneIff(options: string)
    requires Trimmed(options) && Braced(options) && ';' !in options
    ensures ParseText([';'] + options) == Parts("", "", options)
    ensures ParseText(options) == ParseText([';'] + options) <==> '/' !in options
  {
    OptionsAfterSemicolon(options);
    if '/' in options { OptionsWithSlash(options); } else { OptionsWithoutSlash(options); }
  }

  // ----- the destination -----

  /** The decoded options, as far as name resolution looks at them. */
  datatype Options = Options(
    nodeType: string, exchange: string, queue: string,
    durable: bool, autoDelete: bool,                // in x-declare
    nodeDurable: bool, nodeAutoDelete: bool)        // the shortcuts on node

  function ResolvedName(name: string, o: Options): string {
    if name != "" then name
    else
      var byType := if o.nodeType == "queue" then o.queue else if o.nodeType == "topic" then o.exchange else "";
      if byType != "" then byType else if o.exchange != "" then o.exchange else o.queue
  }

  function ResolvedOptions(name: string, o: Options): Options {
    o.(queue := if name != "" && o.nodeType == "queue" && o.queue == "" then name else o.queue,
       exchange := if name != "" && o.nodeType == "topic" && o.exchange == "" then name else o.exchange,
       durable := o.durable || o.nodeDurable,
       autoDelete := o.autoDelete || o.nodeAutoDelete)
  }

  /** A name is found unless address, exchange and queue all leave it empty; and a typed
      destination that has a name declares a node of that type under some name. */
  lemma NameIsResolved(name: string, o: Options)
    ensures ResolvedName(name, o) == "" <==> name == "" && o.exchange == "" && o.queue == ""
    ensures name != "" && o.nodeType == "queue" ==> ResolvedOptions(name, o).queue != ""
    ensures name != "" && o.nodeType == "topic" ==> ResolvedOptions(name, o).exchange != ""
    ensures ResolvedName(ResolvedName(name, o), ResolvedOptions(name, o)) == ResolvedName(name, o)
    // the name in the address comes first, then that of the node type, then any
    ensures name != "" ==> ResolvedName(name, o) == name
    ensures name == "" && o.nodeType == "queue" && o.queue != "" ==> ResolvedName(name, o) == o.queue
    ensures name == "" && o.nodeType != "queue" && o.exchange != "" ==> ResolvedName(name, o) == o.exchange
    ensures name == "" && (o.exchange == "" || o.queue == "") ==> ResolvedName(name, o) == o.exchange + o.queue
    // what is declared explicitly is kept, and nothing is declared but for a typed name
    ensures o.queue != "" || name == "" || o.nodeType != "queue" ==> ResolvedOptions(name, o).queue == o.queue
    ensures o.exchange != "" || name == "" || o.nodeType != "topic" ==> ResolvedOptions(name, o).exchange == o.exchange
    ensures name != "" && o.nodeType == "queue" && o.queue == "" ==> ResolvedOptions(name, o).queue == name
    ensures name != "" && o.nodeType == "topic" && o.exchange == "" ==> ResolvedOptions(name, o).exchange == name
    ensures ResolvedOptions(name, o).nodeType == o.nodeType
    // durability may be set in either place, and is only ever switched on
    ensures ResolvedOptions(name, o).durable <==> o.durable || o.nodeDurable
    ensures ResolvedOptions(name, o).autoDelete <==> o.autoDelete || o.nodeAutoDelete
    ensures ResolvedOptions(name, o).nodeDurable == o.nodeDurable
    ensures ResolvedOptions(name, o).nodeAutoDelete == o.nodeAutoDelete
  {
  }

  class Destination {
    var name: string
    var subject: string
    var options: Options

    constructor ()
    {
      name, subject, options := "", "", Options("", "", "", false, false, false, false);
    }

    /** The options have been decoded: settle on a name, and on what to declare. */
    method Resolve()
      modifies this`name, this`options
      ensures name == ResolvedName(old(name), old(options))
      ensures options == ResolvedOptions(old(name), old(options))
    {
      var queue, exchange := options.queue, options.exchange;
      var nodeType := options.nodeType;
      if name == "" {
        if nodeType == "queue" {
          name := queue;
        }
        if nodeType == "topic" {
          name := exchange;
        }
        if name == "" {
          name := exchange;
        }
        if name == "" {
          name := queue;
        }
      } else {
        if nodeType == "queue" && queue == "" {
          queue := name;
        }
        if nodeType == "topic" && exchange == "" {
          exchange := name;
        }
      }
      var durable, autoDelete := options.durable, options.autoDelete;
      if options.nodeDurable {
        durable := true;
      }
      if options.nodeAutoDelete {
        autoDelete := true;
      }
      options := options.(queue := queue, exchange := exchange, durable := durable, autoDelete := autoDelete);
    }

    /** decode: json.Unmarshal over the default options, None for a syntax error. */
    method ParseAddress(address: string, decode: string -> Option<Options>) returns (ok: bool)
      modifies this
      ensures var p := ParseText(address);
              && subject == p.subject
              && ok == decode(p.options).Some?
              && (ok ==> name == ResolvedName(p.name, decode(p.options).value)
                         && options == ResolvedOptions(p.name, decode(p.options).value))
              && (!ok ==> name == p.name)
    {
      var kv := Split(address, ';');
      var optionsString := "{}";
      if |kv| == 2 {
        optionsString := kv[1];
      }
      var path := Split(kv[0], '/');
      subject := "";
      if |path| == 2 {
        subject := TrimSpace(path[1]);
      }
      name := TrimSpace(path[0]);
      if |name| >= 2 && name[0] == '{' {
        optionsString := name;
        name := "";
      }
      assert Parts(name, subject, optionsString) == ParseText(address);
      var decoded := decode(optionsString);
      if decoded.None? { return false; }
      options := decoded.value;
      Resolve();
      return true;
    }
  }
}
