// The command-line transcript codec of the pod-exec transport
// (pkg/topology/transport/podexec/cli/tarantoolctl.go). A Lua call becomes a
// shell command that pipes a wrapper script into `tarantoolctl connect`; the
// console's YAML answer is cleaned up with three regular-expression
// replacements, parsed, and its base64 `res` field decoded from JSON. YAML
// parsing, JSON encoding and decoding, and strconv.Quote are parameters.

module Tarantoolctl {
  import opened Wrappers
  import opened Text
  import opened Errors
  import opened Base64

  /** What the transport executes in the pod: the argument vector and standard input. */
  datatype Command = Command(command: seq<string>, stdIn: string)

  /** The fixed argument vector: a shell that feeds stdin to the instance's console. */
  const ShellCommand: seq<string> :=
    ["sh", "-c", "cat /dev/stdin | tarantoolctl connect `ls $CARTRIDGE_RUN_DIR/*.control` "]

  // The wrapper script around the caller's Lua, split where the two %s verbs are.
  const TemplateHeadLines := "\n\t\tlocal digest = require('digest')\n\t\tlocal json = require('json')\n\t\tlocal args = "
  const TemplateHead := TemplateHeadLines + "json.decode("
  const TemplateMiddleRest := "\n\t\tlocal func = function(...)\n        \t"
  const TemplateMiddle := ")" + TemplateMiddleRest
  const TemplateTail := "\n\t\tend\n\t\tlocal ok, result\n\t\tok, result = pcall(func, unpack(args))\n\t\treturn {ok=ok,res=digest.base64_encode(json.encode(result)),}\t\n\t"

  /** fmt.Sprintf of the template with the argument literal and the Lua body. */
  function Template(argsLiteral: string, lua: string): string
  {
    TemplateHead + argsLiteral + TemplateMiddle + lua + TemplateTail
  }

  /** The argument literal used when there are no arguments. */
  const EmptyArgsLiteral := "'{}'"

  predicate NoTabs(s: string)
  {
    forall i :: 0 <= i < |s| ==> s[i] != '\t'
  }

  /** strings.ReplaceAll(s, "\t", ""). */
  function StripTabs(s: string): (r: string)
    ensures NoTabs(r) && |r| <= |s|
  {
    if |s| == 0 then ""
    else if s[0] == '\t' then StripTabs(s[1..])
    else [s[0]] + StripTabs(s[1..])
  }

  /** Removing tabs distributes over concatenation. */
  lemma {:induction false} StripTabsConcat(a: string, b: string)
    ensures StripTabs(a + b) == StripTabs(a) + StripTabs(b)
    decreases |a|
  {
    if |a| > 0 {
      assert (a + b)[0] == a[0] && (a + b)[1..] == a[1..] + b;
      StripTabsConcat(a[1..], b);
      if a[0] == '\t' {
        assert StripTabs(a) == StripTabs(a[1..]);
        assert StripTabs(a + b) == StripTabs(a[1..] + b);
      } else {
        assert StripTabs(a) == [a[0]] + StripTabs(a[1..]);
        assert StripTabs(a + b) == [a[0]] + StripTabs(a[1..] + b);
      }
    } else {
      assert a + b == b;
    }
  }

  /** Text without tabs is left as it is. */
  lemma {:induction false} StripTabsNoTabs(s: string)
    requires NoTabs(s)
    ensures StripTabs(s) == s
    decreases |s|
  {
    if |s| > 0 {
      StripTabsNoTabs(s[1..]);
    }
  }

  /**
   * CreateCommand. `args` is None for a call without arguments (a nil slice);
   * `marshal` is json.Marshal of the argument slice and `quote` is strconv.Quote.
   */
  function CreateCommand<A>(lua: string, args: Option<seq<A>>,
                            marshal: seq<A> -> Outcome<string>, quote: string -> string): (r: Outcome<Command>)
    ensures r.Ok? ==> r.value.command == ShellCommand && NoTabs(r.value.stdIn)
    ensures r.Fail? <==> args.Some? && marshal(args.value).Fail?
    ensures r.Fail? ==> r.error == marshal(args.value).error
    ensures r.Ok? ==> Contains(r.value.stdIn, StripTabs(lua))
    ensures args.None? ==> r.Ok? && Contains(r.value.stdIn, "json.decode('{}')")
    ensures args.Some? && r.Ok? ==>
      Contains(r.value.stdIn, "json.decode(" + StripTabs(quote(marshal(args.value).value)) + ")")
  {
    var literal :=
      if args.None? then Ok(EmptyArgsLiteral)
      else match marshal(args.value)
        case Fail(e) => Fail(e)
        case Ok(json) => Ok(quote(json));
    match literal
    case Fail(e) => Fail(e)
    case Ok(l) =>
      ScriptShape(l, lua);
      Ok(Command(ShellCommand, StripTabs(Template(l, lua))))
  }

  /**
   * Without its tabs the script still holds the whole Lua body and, inside
   * json.decode( ), the whole argument literal.
   */
  lemma ScriptShape(literal: string, lua: string)
    ensures Contains(StripTabs(Template(literal, lua)), StripTabs(lua))
    ensures Contains(StripTabs(Template(literal, lua)), "json.decode(" + StripTabs(literal) + ")")
    ensures literal == EmptyArgsLiteral ==> Contains(StripTabs(Template(literal, lua)), "json.decode('{}')")
  {
    WrapperShape(TemplateHeadLines, TemplateMiddleRest, TemplateTail, literal, lua);
    assert Template(literal, lua)
      == TemplateHeadLines + "json.decode(" + literal + ")" + TemplateMiddleRest + lua + TemplateTail;
    if literal == EmptyArgsLiteral {
      assert NoTabs(EmptyArgsLiteral);
      StripTabsNoTabs(EmptyArgsLiteral);
      assert "json.decode(" + StripTabs(literal) + ")" == "json.decode('{}')";
    }
  }

  /** ScriptShape for any text around the two holes. */
  lemma WrapperShape(headLines: string, middleRest: string, tail: string, literal: string, lua: string)
    ensures var script := StripTabs(headLines + "json.decode(" + literal + ")" + middleRest + lua + tail);
      Contains(script, StripTabs(lua)) && Contains(script, "json.decode(" + StripTabs(literal) + ")")
  {
    var decode := "json.decode(" + literal + ")";
    var after := middleRest + lua + tail;
    assert headLines + "json.decode(" + literal + ")" + middleRest + lua + tail == headLines + decode + after;
    StripTabsThree(headLines, decode, after);
    DecodeCallShape(literal);
    var d := StripTabs(decode);
    ContainsAt(d, d, 0);
    ContainsInContext(StripTabs(headLines), d, StripTabs(after), d);
    BodyShape(StripTabs(headLines) + d, middleRest, lua, tail);
  }

  lemma DecodeCallShape(literal: string)
    ensures StripTabs("json.decode(" + literal + ")") == "json.decode(" + StripTabs(literal) + ")"
  {
    StripTabsThree("json.decode(", literal, ")");
    assert NoTabs("json.decode(") && NoTabs(")");
    StripTabsNoTabs("json.decode(");
    StripTabsNoTabs(")");
  }

  lemma BodyShape(before: string, middleRest: string, lua: string, tail: string)
    ensures Contains(before + StripTabs(middleRest + lua + tail), StripTabs(lua))
  {
    StripTabsThree(middleRest, lua, tail);
    var l := StripTabs(lua);
    ContainsAt(l, l, 0);
    ContainsInContext(StripTabs(middleRest), l, StripTabs(tail), l);
    ContainsInContext(before, StripTabs(middleRest + lua + tail), "", l);
    assert before + StripTabs(middleRest + lua + tail) + "" == before + StripTabs(middleRest + lua + tail);
  }

  lemma StripTabsThree(x: string, y: string, z: string)
    ensures StripTabs(x + y + z) == StripTabs(x) + StripTabs(y) + StripTabs(z)
  {
    StripTabsConcat(x + y, z);
    StripTabsConcat(x, y);
  }

  // ----- Decoding the console answer -----

  /** The three regular expressions applied before parsing. */
  datatype Pattern =
    | Leading    // (?m)^---\n-\s+?   replaced by ""
    | Trailing   // (?m)\n.{3}\n?$    replaced by ""
    | ResIndent  // (?m)\n(\s*)res:   replaced by "\nres:"

  /** RE2's \s: tab, newline, form feed, carriage return and space. */
  predicate IsSpace(c: char)
  {
    c == '\t' || c == '\n' || c == '\U{000C}' || c == '\r' || c == ' '
  }

  /** The end of the run of \s characters starting at j. */
  function SpaceRunEnd(s: string, j: nat): (k: nat)
    requires j <= |s|
    ensures j <= k <= |s|
    ensures forall m :: j <= m < k ==> IsSpace(s[m])
    ensures k == |s| || !IsSpace(s[k])
    decreases |s| - j
  {
    if j < |s| && IsSpace(s[j]) then SpaceRunEnd(s, j + 1) else j
  }

  /**
   * The length of the leftmost-first match of the pattern starting at i, or 0
   * when none starts there. In multi-line mode ^ holds at the start of the text
   * and after a newline, $ at the end of the text and before a newline, and .
   * matches anything but a newline.
   */
  function MatchAt(p: Pattern, s: string, i: nat): (n: nat)
    requires i < |s|
    ensures i + n <= |s|
    ensures n > 0 ==> s[i] == (if p == Leading then '-' else '\n')
  {
    match p
    case Leading =>
      // the lazy \s+? takes exactly one character
      if (i == 0 || s[i - 1] == '\n') && i + 6 <= |s| && s[i..i + 5] == "---\n-" && IsSpace(s[i + 5])
      then 6 else 0
    case Trailing =>
      if i + 4 <= |s| && s[i] == '\n' && s[i + 1] != '\n' && s[i + 2] != '\n' && s[i + 3] != '\n' then
        if i + 4 == |s| then 4
        // the greedy \n? takes the newline only if $ holds after it
        else if s[i + 4] == '\n' then (if i + 5 == |s| || s[i + 5] == '\n' then 5 else 4)
        else 0
      else 0
    case ResIndent =>
      if s[i] == '\n' then
        var j := SpaceRunEnd(s, i + 1);
        if j + 4 <= |s| && s[j..j + 4] == "res:" then j + 4 - i else 0
      else 0
  }

  function Replacement(p: Pattern): string
  {
    if p == ResIndent then "\nres:" else ""
  }

  /** regexp.ReplaceAllString from position i on: non-overlapping matches, left to right. */
  function ReplaceFrom(p: Pattern, s: string, i: nat): string
    requires i <= |s|
    decreases |s| - i
  {
    if i == |s| then ""
    else
      var n := MatchAt(p, s, i);
      if n == 0 then [s[i]] + ReplaceFrom(p, s, i + 1)
      else Replacement(p) + ReplaceFrom(p, s, i + n)
  }

  function ReplaceAll(p: Pattern, s: string): string
  {
    ReplaceFrom(p, s, 0)
  }

  /** The clean-up applied to the console output before YAML parsing. */
  function Preprocess(s: string): string
  {
    ReplaceAll(ResIndent, ReplaceAll(Trailing, ReplaceAll(Leading, s)))
  }

  /** Where the pattern does not match, the character is copied and the scan moves on by one. */
  lemma ReplaceCopiesOne(p: Pattern, s: string, i: nat)
    requires i < |s| && MatchAt(p, s, i) == 0
    ensures ReplaceFrom(p, s, i) == [s[i]] + ReplaceFrom(p, s, i + 1)
  {
  }

  /** A stretch of text where the pattern never matches is copied unchanged. */
  lemma {:induction false} ReplaceCopies(p: Pattern, s: string, i: nat, j: nat)
    requires i <= j <= |s|
    requires forall k :: i <= k < j ==> MatchAt(p, s, k) == 0
    ensures ReplaceFrom(p, s, i) == s[i..j] + ReplaceFrom(p, s, j)
    decreases j - i
  {
    if i < j {
      var rest := ReplaceFrom(p, s, j);
      calc {
        ReplaceFrom(p, s, i);
      == { ReplaceCopiesOne(p, s, i); }
        [s[i]] + ReplaceFrom(p, s, i + 1);
      == { ReplaceCopies(p, s, i + 1, j); }
        [s[i]] + (s[i + 1..j] + rest);
      == { assert s[i..j] == [s[i]] + s[i + 1..j]; }
        s[i..j] + rest;
      }
    }
  }

  /** What the YAML parser makes of the cleaned-up text. */
  datatype YamlDoc =
    | YamlError(err: Error)             // yaml.Unmarshal failed
    | YamlNull                          // the document decoded to a nil record
    | YamlRecord(ok: bool, res: string) // the `ok` flag and the base64 `res` field

  /** The error for a `res` field that is not valid base64; the byte offset is not modelled. */
  const CorruptBase64 := Plain("illegal base64 data")

  const UnparsableOutput := Plain("can't parse tarantool output")

  /**
   * Unmarshal: `yaml` parses the cleaned-up text, `jsonString` decodes the error
   * payload of a failed call and `jsonTarget` the payload of a successful one.
   */
  function Unmarshal<T>(result: string, yaml: string -> YamlDoc,
                        jsonString: seq<byte> -> Outcome<string>,
                        jsonTarget: seq<byte> -> Outcome<T>): (r: Outcome<T>)
    ensures yaml(Preprocess(result)).YamlError? ==> r == Fail(yaml(Preprocess(result)).err)
    ensures yaml(Preprocess(result)).YamlNull? ==> r == Fail(UnparsableOutput)
    ensures yaml(Preprocess(result)).YamlRecord? && Decode(yaml(Preprocess(result)).res).None?
      ==> r == Fail(CorruptBase64)
    ensures r.Ok? ==> yaml(Preprocess(result)).YamlRecord? && yaml(Preprocess(result)).ok
  {
    match yaml(Preprocess(result))
    case YamlError(e) => Fail(e)
    case YamlNull => Fail(UnparsableOutput)
    case YamlRecord(ok, res) =>
      match Decode(res)
      case None => Fail(CorruptBase64)
      case Some(bytes) =>
        if !ok then
          match jsonString(bytes)
          case Fail(e) => Fail(e)
          case Ok(msg) => Fail(Plain(msg))
        else jsonTarget(bytes)
  }

  /** The console's answer to the wrapper script: a one-element YAML list. */
  function Transcript(okLine: string, encoded: string): string
  {
    "---\n- " + okLine + "\n  res: " + encoded + "\n...\n"
  }

  predicate NoNewline(s: string)
  {
    forall i :: 0 <= i < |s| ==> s[i] != '\n'
  }

  /** The leading "---\n- " is removed and nothing else is touched. */
  lemma StripLeadingOfTranscript(okLine: string, x: string)
    requires NoNewline(okLine) && NoNewline(x)
    ensures ReplaceAll(Leading, Transcript(okLine, x)) == okLine + "\n  res: " + x + "\n...\n"
  {
    var s := Transcript(okLine, x);
    var rest := okLine + "\n  res: " + x + "\n...\n";
    assert s == "---\n- " + rest;
    assert MatchAt(Leading, s, 0) == 6;
    forall k | 6 <= k < |s|
      ensures MatchAt(Leading, s, k) == 0
    {
      if s[k - 1] == '\n' && k + 6 <= |s| {
        assert s[k..k + 5] != "---\n-" by {
          var a := 6 + |okLine|;
          var b := a + 8 + |x|;
          assert s[a] == '\n' && s[b] == '\n';
          assert k == a + 1;
          assert s[k] == ' ';
        }
      }
    }
    ReplaceCopies(Leading, s, 6, |s|);
    assert s[6..|s|] == rest;
  }

  /** The trailing "\n...\n" is removed and nothing else is touched. */
  lemma StripTrailingOfTranscript(okLine: string, x: string)
    requires NoNewline(okLine) && NoNewline(x)
    ensures ReplaceAll(Trailing, okLine + "\n  res: " + x + "\n...\n") == okLine + "\n  res: " + x
  {
    var body := okLine + "\n  res: " + x;
    var s := body + "\n...\n";
    var a := |okLine|;
    forall k | 0 <= k < |body|
      ensures MatchAt(Trailing, s, k) == 0
    {
      if s[k] == '\n' {
        assert k == a;
        assert s[k + 4] == 'e';
      }
    }
    ReplaceCopies(Trailing, s, 0, |body|);
    assert s[0..|body|] == body;
    assert MatchAt(Trailing, s, |body|) == 5;
  }

  /** The indentation before "res:" is removed. */
  lemma StripIndentOfTranscript(okLine: string, x: string)
    requires NoNewline(okLine) && NoNewline(x)
    ensures ReplaceAll(ResIndent, okLine + "\n  res: " + x) == okLine + "\nres: " + x
  {
    var s := okLine + "\n  res: " + x;
    var a := |okLine|;
    ReplaceCopies(ResIndent, s, 0, a);
    assert s[0..a] == okLine;
    assert s[a + 1] == ' ' && s[a + 2] == ' ' && s[a + 3] == 'r';
    assert SpaceRunEnd(s, a + 1) == a + 3;
    assert s[a + 3..a + 7] == "res:";
    assert MatchAt(ResIndent, s, a) == 7;
    forall k | a + 7 <= k < |s|
      ensures MatchAt(ResIndent, s, k) == 0
    {
      assert s[k] != '\n';
    }
    ReplaceCopies(ResIndent, s, a + 7, |s|);
    assert s[a + 7..|s|] == " " + x;
  }

  /** The clean-up turns the console transcript into a flat two-key mapping. */
  lemma PreprocessTranscript(okLine: string, x: string)
    requires NoNewline(okLine) && NoNewline(x)
    ensures Preprocess(Transcript(okLine, x)) == okLine + "\nres: " + x
  {
    StripLeadingOfTranscript(okLine, x);
    StripTrailingOfTranscript(okLine, x);
    StripIndentOfTranscript(okLine, x);
  }

  /**
   * End to end: when the parser reads the cleaned-up transcript of a successful
   * call as that record, Unmarshal decodes exactly the bytes the script encoded.
   */
  lemma UnmarshalSuccessfulCall<T>(okLine: string, payload: seq<byte>, yaml: string -> YamlDoc,
                                   jsonString: seq<byte> -> Outcome<string>,
                                   jsonTarget: seq<byte> -> Outcome<T>)
    requires NoNewline(okLine)
    requires yaml(okLine + "\nres: " + Encode(payload)) == YamlRecord(true, Encode(payload))
    ensures Unmarshal(Transcript(okLine, Encode(payload)), yaml, jsonString, jsonTarget) == jsonTarget(payload)
  {
    PreprocessTranscript(okLine, Encode(payload));
    DecodeEncode(payload);
  }

  /** A failed call surfaces the JSON-decoded message as a plain error. */
  lemma UnmarshalFailedCall<T>(okLine: string, payload: seq<byte>, msg: string, yaml: string -> YamlDoc,
                               jsonString: seq<byte> -> Outcome<string>,
                               jsonTarget: seq<byte> -> Outcome<T>)
    requires NoNewline(okLine)
    requires yaml(okLine + "\nres: " + Encode(payload)) == YamlRecord(false, Encode(payload))
    requires jsonString(payload) == Ok(msg)
    ensures Unmarshal(Transcript(okLine, Encode(payload)), yaml, jsonString, jsonTarget) == Fail(Plain(msg))
  {
    PreprocessTranscript(okLine, Encode(payload));
    DecodeEncode(payload);
  }
}
