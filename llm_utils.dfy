/**
 * `parse_llm_json_response` and the inline cleaners that the nodes apply to
 * an LLM reply before handing it to the JSON decoder.  Decoding itself is a
 * `Decoder` parameter, so every statement here holds for any decoder.
 */
module LlmUtils {
  import opened Wrappers
  import opened Text
  import opened Json

  const Fence := "```"

  /** The language tags removed after cleaning, tried once each in this order. */
  const LanguagePrefixes: seq<string> := ["json", "JSON", "python", "Python"]

  /** What `parse_llm_json_response` returns or raises. */
  datatype LlmReply =
    | Parsed(value: Json)
    | EmptyLlmResponse   // ValueError("Empty LLM response")
    | ParseFailure       // ValueError("Failed to parse LLM JSON response: ...")

  /**
   * `parts[1]` of `s.split("```")` for an `s` that starts with a fence: the
   * text after the opening fence up to the next fence, or to the end.
   */
  function FirstFenceBody(s: string): string
    requires StartsWith(s, Fence)
  {
    match IndexFrom(s, Fence, 3)
    case Some(k) => s[3..k]
    case None => s[3..]
  }

  /** The fence body is the text right after the opening fence, and holds no fence itself. */
  lemma FirstFenceBodyShape(s: string)
    requires StartsWith(s, Fence)
    ensures 3 + |FirstFenceBody(s)| <= |s| && FirstFenceBody(s) == s[3..3 + |FirstFenceBody(s)|]
    ensures !Contains(FirstFenceBody(s), Fence)
  {
    var r := FirstFenceBody(s);
    var hi := 3 + |r|;
    assert r == s[3..hi];
    forall p | 0 <= p <= |r| && At(r, Fence, p) ensures false {
      AtInSlice(s, Fence, 3, hi, p);
    }
  }

  /** `s.split("\n", 1)[1]` when a newline remains, else `s`. */
  function DropFirstLine(s: string): string {
    if '\n' in s then AfterFirst(s, '\n') else s
  }

  /** The fence step applied to the trimmed reply (llm_utils.py lines 29-37). */
  function Unfence(cleaned: string): string {
    if StartsWith(cleaned, Fence) then DropFirstLine(Strip(FirstFenceBody(cleaned))) else cleaned
  }

  /** One round of the prefix loop: a case-insensitive prefix is cut and the rest trimmed. */
  function CutPrefix(s: string, p: string): string {
    if StartsWith(Lower(s), Lower(p)) then Strip(s[|p|..]) else s
  }

  /** The prefix loop over `ps`, in order. */
  function CutPrefixes(s: string, ps: seq<string>): string
    decreases |ps|
  {
    if ps == [] then s else CutPrefixes(CutPrefix(s, ps[0]), ps[1..])
  }

  /** The text `parse_llm_json_response` hands to `json.loads` for a non-empty reply. */
  function CleanedText(content: string): string {
    CutPrefixes(Strip(StripChar(Strip(Unfence(Strip(content))), '`')), LanguagePrefixes)
  }

  /** The outcome of `parse_llm_json_response(content)`; `None` is Python's `None`. */
  function ParseSpec(content: Option<string>, decode: Decoder): LlmReply {
    if content.None? || content.value == "" then EmptyLlmResponse
    else match decode(CleanedText(content.value))
      case Some(v) => Parsed(v)
      case None => ParseFailure
  }

  /**
   * `parse_llm_json_response`: the local `cleaned` is rewritten step by step
   * and a loop over the four prefixes rewrites it again.  Any decoded value
   * is returned, a list as well as a dict.
   */
  method ParseLlmJsonResponse(content: Option<string>, decode: Decoder) returns (r: LlmReply)
    ensures (content.None? || content.value == "") <==> r == EmptyLlmResponse
    ensures content.Some? && content.value != "" ==>
      (r == ParseFailure <==> decode(CleanedText(content.value)).None?)
    ensures r.Parsed? ==> content.Some? && decode(CleanedText(content.value)) == Some(r.value)
  {
    if content.None? || content.value == "" {
      return EmptyLlmResponse;
    }
    var cleaned := Strip(content.value);
    if StartsWith(cleaned, Fence) {
      var part := FirstFenceBody(cleaned);
      cleaned := Strip(part);
      if '\n' in cleaned {
        cleaned := AfterFirst(cleaned, '\n');
      }
    }
    cleaned := Strip(StripChar(Strip(cleaned), '`'));
    ghost var before := cleaned;
    var i := 0;
    while i < |LanguagePrefixes|
      invariant 0 <= i <= |LanguagePrefixes|
      invariant CutPrefixes(cleaned, LanguagePrefixes[i..]) == CutPrefixes(before, LanguagePrefixes)
    {
      var prefix := LanguagePrefixes[i];
      if StartsWith(Lower(cleaned), Lower(prefix)) {
        cleaned := Strip(cleaned[|prefix|..]);
      }
      i := i + 1;
    }
    assert cleaned == CleanedText(content.value);
    match decode(cleaned) {
      case Some(v) => r := Parsed(v);
      case None => r := ParseFailure;
    }
  }

  // ---------------------------------------------------------------------
  // Inline cleaners in the nodes
  // ---------------------------------------------------------------------

  /**
   * `resp.content.strip().strip("`").removeprefix("json")`, the cleaner of the
   * classifier's LLM tier and of entity and follow-up extraction.
   */
  function InlineClean(s: string): (r: string)
    ensures StartsWith(StripChar(Strip(s), '`'), "json") ==> r == StripChar(Strip(s), '`')[4..]
    ensures !StartsWith(StripChar(Strip(s), '`'), "json") ==> r == StripChar(Strip(s), '`')
  {
    RemovePrefix(StripChar(Strip(s), '`'), "json")
  }

  /**
   * The planner fallback's cleaner: the reply is trimmed, and only when it
   * then starts with a fence are backticks stripped and one "json" and then
   * one "JSON" removed.
   */
  function PlannerClean(s: string): (r: string)
    ensures !StartsWith(Strip(s), Fence) ==> r == Strip(s)
    ensures StartsWith(Strip(s), Fence) ==>
      r == RemovePrefix(RemovePrefix(StripChar(Strip(s), '`'), "json"), "JSON")
  {
    var raw := Strip(s);
    if StartsWith(raw, Fence) then RemovePrefix(RemovePrefix(StripChar(raw, '`'), "json"), "JSON") else raw
  }

  /**
   * The inline cleaner takes a reply fenced as "```json" ... "```" to
   * exactly the text between tag and closing fence, and removes a leading
   * "json" even from a reply that has no fence.
   */
  lemma InlineCleanFacts(body: string)
    requires body != [] && body[0] != '`' && body[|body| - 1] != '`'
    ensures InlineClean("```json" + body + "```") == body
    ensures !IsSpace(body[|body| - 1]) ==> InlineClean("json" + body) == body
  {
    InlineCleanFenced(body);
    if !IsSpace(body[|body| - 1]) {
      InlineCleanBare(body);
    }
  }

  lemma InlineCleanFenced(body: string)
    requires body != [] && body[0] != '`' && body[|body| - 1] != '`'
    ensures InlineClean("```json" + body + "```") == body
  {
    var m := "json" + body;
    var s := "```json" + body + "```";
    StripNoop(s);
    assert s == Fence + m + Fence;
    StripCharAround(Fence, m, Fence, '`');
    assert StartsWith(m, "json") && m[4..] == body;
  }

  lemma InlineCleanBare(body: string)
    requires body != [] && body[0] != '`' && body[|body| - 1] != '`' && !IsSpace(body[|body| - 1])
    ensures InlineClean("json" + body) == body
  {
    var m := "json" + body;
    assert StartsWith(m, "json") && m[4..] == body;
    StripNoop(m);
    StripCharAround([], m, [], '`');
    assert [] + m + [] == m;
  }

  /**
   * The planner cleaner takes a reply fenced as "```json" or "```JSON" ...
   * "```" to exactly the text between tag and closing fence, but leaves
   * an unfenced reply as it is, tag included.
   */
  lemma PlannerCleanFacts(tag: string, body: string)
    requires tag == "json" || tag == "JSON"
    requires body != [] && body[0] != '`' && body[|body| - 1] != '`' && !IsSpace(body[|body| - 1])
    requires !StartsWith(body, "JSON")
    ensures PlannerClean(Fence + tag + body + Fence) == body
    ensures PlannerClean(tag + body) == tag + body
  {
    var m := tag + body;
    var s := Fence + tag + body + Fence;
    assert s == Fence + m + Fence;
    StripNoop(s);
    assert StartsWith(s, Fence);
    StripCharAround(Fence, m, Fence, '`');
    assert m[4..] == body;
    if tag == "JSON" {
      assert !StartsWith(m, "json") by { assert m[0] == 'J'; }
    }
    StripNoop(m);
    assert !StartsWith(m, Fence) by { assert m[0] != '`'; }
  }

  // ---------------------------------------------------------------------
  // Properties of parse_llm_json_response
  // ---------------------------------------------------------------------

  /** A whitespace-only reply is not "empty": it reaches the decoder as "". */
  lemma WhitespaceOnlyReachesDecoder(s: string, decode: Decoder)
    requires s != [] && forall j :: 0 <= j < |s| ==> IsSpace(s[j])
    ensures CleanedText(s) == ""
    ensures ParseSpec(Some(s), decode) != EmptyLlmResponse
    ensures decode("") == None ==> ParseSpec(Some(s), decode) == ParseFailure
  {
    LStripAllSpace(s);
    assert Unfence("") == "";
    assert StripChar("", '`') == "";
    CutPrefixesOfEmpty();
  }

  lemma CutPrefixesOfEmpty()
    ensures CutPrefixes("", LanguagePrefixes) == ""
  {
    assert CutPrefix("", "json") == "";
    assert CutPrefix("", "JSON") == "";
    assert CutPrefix("", "python") == "";
    assert CutPrefix("", "Python") == "";
  }

  /** No fence opens the text inside `b`, counting one that straddles into the closing fence. */
  predicate NoFenceIn(b: string) {
    forall j :: 0 <= j < |b| ==> !At(b + Fence, Fence, j)
  }

  lemma {:induction false} FenceBodyOf(b: string, rest: string)
    requires NoFenceIn(b)
    ensures StartsWith(Fence + b + Fence + rest, Fence)
    ensures FirstFenceBody(Fence + b + Fence + rest) == b
  {
    var s := Fence + b + Fence + rest;
    assert s[..3] == Fence;
    assert At(s, Fence, 3 + |b|) by {
      assert s[3 + |b|..3 + |b| + 3] == Fence;
    }
    forall j | 3 <= j < 3 + |b| ensures !At(s, Fence, j) {
      if At(s, Fence, j) {
        assert s[j..j + 3] == (b + Fence)[j - 3..j];
        assert At(b + Fence, Fence, j - 3);
      }
    }
    var k := IndexFrom(s, Fence, 3);
    assert k == Some(3 + |b|);
    assert s[3..3 + |b|] == b;
  }

  /**
   * Only the first fenced block counts: whatever follows its closing fence
   * never reaches the decoder.
   */
  lemma {:induction false} OnlyFirstFencedBlock(b: string, rest1: string, rest2: string)
    requires NoFenceIn(b)
    ensures Unfence(Strip(Fence + b + Fence + rest1)) == DropFirstLine(Strip(b))
    ensures CleanedText(Fence + b + Fence + rest1) == CleanedText(Fence + b + Fence + rest2)
  {
    forall rest | rest == rest1 || rest == rest2
      ensures Unfence(Strip(Fence + b + Fence + rest)) == DropFirstLine(Strip(b))
    {
      var p := Fence + b + Fence;
      assert Fence + b + Fence + rest == p + rest;
      assert LStrip(p + rest) == p + rest;
      RStripAppend(p, rest);
      assert Strip(p + rest) == p + RStrip(rest);
      assert p + RStrip(rest) == Fence + b + Fence + RStrip(rest);
      FenceBodyOf(b, RStrip(rest));
    }
  }

  /** A closed fence with nothing around it is kept whole by the first trim. */
  lemma ClosedFenceStrips(b: string)
    ensures Strip(Fence + b + Fence) == Fence + b + Fence
  {
    var s := Fence + b + Fence;
    assert s[0] == '`' && s[|s| - 1] == '`';
    StripNoop(s);
  }

  /** A closed fence alone: its body is trimmed and then loses its first line. */
  lemma ClosedFenceUnfenced(b: string)
    requires NoFenceIn(b)
    ensures Unfence(Strip(Fence + b + Fence)) == DropFirstLine(Strip(b))
  {
    ClosedFenceStrips(b);
    FenceBodyOf(b, "");
    assert Fence + b + Fence + "" == Fence + b + Fence;
  }

  /** The trimmed body of a tag line and a body that keeps some non-space text. */
  lemma StripTagLine(tag: string, body: string)
    requires tag != [] && !IsSpace(tag[0])
    requires RStrip(body) != []
    ensures Strip(tag + "\n" + body) == tag + "\n" + RStrip(body)
  {
    var t := tag + "\n" + body;
    assert t[0] == tag[0];
    assert LStrip(t) == t;
    RStripAppendKept(tag + "\n", body);
  }

  /**
   * A tagged fence: whatever the tag (no whitespace, no backtick), the tag
   * line is dropped and the body is what remains.
   */
  lemma TaggedFenceKeepsBody(tag: string, body: string)
    requires tag != [] && forall j :: 0 <= j < |tag| ==> !IsSpace(tag[j]) && tag[j] != '`'
    requires NoFenceIn(tag + "\n" + body)
    requires RStrip(body) != []
    ensures Unfence(Strip(Fence + tag + "\n" + body + Fence)) == RStrip(body)
  {
    var b := tag + "\n" + body;
    assert Fence + tag + "\n" + body + Fence == Fence + b + Fence;
    TaggedFenceBody(tag, body, b);
  }

  lemma TaggedFenceBody(tag: string, body: string, b: string)
    requires tag != [] && forall j :: 0 <= j < |tag| ==> !IsSpace(tag[j]) && tag[j] != '`'
    requires b == tag + "\n" + body && NoFenceIn(b)
    requires RStrip(body) != []
    ensures Unfence(Strip(Fence + b + Fence)) == RStrip(body)
  {
    ClosedFenceUnfenced(b);
    StripTagLine(tag, body);
    AfterTagLine(tag, RStrip(body));
  }

  lemma {:induction false} AfterTagLine(tag: string, rest: string)
    requires forall j :: 0 <= j < |tag| ==> tag[j] != '\n'
    ensures '\n' in tag + "\n" + rest
    ensures AfterFirst(tag + "\n" + rest, '\n') == rest
    decreases |tag|
  {
    var t := tag + "\n" + rest;
    assert t[|tag|] == '\n';
    if tag == [] {
      assert t == "\n" + rest;
    } else {
      assert t[0] == tag[0];
      assert t[1..] == tag[1..] + "\n" + rest;
      AfterTagLine(tag[1..], rest);
    }
  }

  /**
   * Unfenced text is only trimmed: a reply whose trimmed form is delimited
   * like a JSON object or array reaches the decoder exactly as trimmed.
   * In particular no trailing comma is repaired and no bracketed part is
   * cut out of surrounding prose.
   */
  lemma PlainJsonReachesDecoderTrimmed(s: string)
    requires Strip(s) != []
    requires Strip(s)[0] in "{[" && Strip(s)[|Strip(s)| - 1] in "}]"
    ensures CleanedText(s) == Strip(s)
  {
    var t := Strip(s);
    assert !StartsWith(t, Fence);
    StripNoop(t);
    assert StripChar(t, '`') == t;
    NoPrefixCut(t);
  }

  /** A text that begins with no letter of a language tag passes the prefix loop unchanged. */
  lemma NoPrefixCut(t: string)
    requires t != [] && Lower(t)[0] !in "jp"
    ensures CutPrefixes(t, LanguagePrefixes) == t
  {
    assert Lower("json") == "json" && Lower("JSON") == "json";
    assert Lower("python") == "python" && Lower("Python") == "python";
    assert CutPrefix(t, "json") == t;
    assert CutPrefix(t, "JSON") == t;
    assert CutPrefix(t, "python") == t;
    assert CutPrefix(t, "Python") == t;
  }

  /**
   * Prose that does not start with a fence or a tag letter is handed to the
   * decoder whole: the JSON embedded in it is not searched for.
   */
  lemma ProseReachesDecoderWhole(s: string)
    requires Strip(s) != [] && !StartsWith(Strip(s), Fence)
    requires Strip(s)[0] != '`' && Strip(s)[|Strip(s)| - 1] != '`'
    requires LowerChar(Strip(s)[0]) !in "jp"
    ensures CleanedText(s) == Strip(s)
  {
    var t := Strip(s);
    StripShape(s);
    StripNoop(t);
    assert StripChar(t, '`') == t;
    NoPrefixCut(t);
  }

  /** The loop tries "json" and then "JSON", both lower-casing to "json", so a doubled tag goes. */
  lemma DoubledTagBothCut()
    ensures CutPrefixes("jsonJSON[1]", LanguagePrefixes) == "[1]"
  {
    assert Lower("jsonJSON[1]")[..4] == "json";
    assert CutPrefix("jsonJSON[1]", "json") == "JSON[1]";
    assert Lower("JSON[1]")[..4] == "json";
    assert CutPrefix("JSON[1]", "JSON") == "[1]";
    NoPrefixCut("[1]");
    assert CutPrefixes("[1]", ["python", "Python"]) == "[1]" by {
      assert CutPrefix("[1]", "python") == "[1]";
      assert CutPrefix("[1]", "Python") == "[1]";
    }
  }

  // ---------------------------------------------------------------------
  // The untagged multi-line fence
  // ---------------------------------------------------------------------

  /**
   * As written: the fence body is trimmed BEFORE the tag line is dropped, so
   * a fence with no tag loses the first line of its body.
   */
  lemma UntaggedFenceDropsFirstLine(line1: string, rest: string)
    requires line1 != [] && !IsSpace(line1[0])
    requires forall j :: 0 <= j < |line1| ==> line1[j] != '\n'
    requires NoFenceIn("\n" + line1 + "\n" + rest)
    requires RStrip(rest) != []
    ensures Unfence(Strip(Fence + "\n" + line1 + "\n" + rest + Fence)) == RStrip(rest)
  {
    var b := "\n" + (line1 + "\n" + rest);
    assert "\n" + line1 + "\n" + rest == b;
    assert Fence + "\n" + line1 + "\n" + rest + Fence == Fence + b + Fence;
    UntaggedFenceBody(line1, rest, b);
  }

  lemma UntaggedFenceBody(line1: string, rest: string, b: string)
    requires line1 != [] && !IsSpace(line1[0])
    requires forall j :: 0 <= j < |line1| ==> line1[j] != '\n'
    requires b == "\n" + (line1 + "\n" + rest) && NoFenceIn(b)
    requires RStrip(rest) != []
    ensures Unfence(Strip(Fence + b + Fence)) == RStrip(rest)
  {
    ClosedFenceUnfenced(b);
    StripLeadingNewline(line1 + "\n" + rest);
    StripTagLine(line1, rest);
    AfterTagLine(line1, RStrip(rest));
  }

  lemma StripLeadingNewline(t: string)
    ensures Strip("\n" + t) == Strip(t)
  {
    assert ("\n" + t)[1..] == t;
  }

  /** The reply "```\n{\n\"a\": 1\n}\n```" reaches the decoder without its opening brace. */
  lemma UntaggedFenceExample()
    ensures Unfence(Strip("```\n{\n\"a\": 1\n}\n```")) == "\"a\": 1\n}"
  {
    var rest := "\"a\": 1\n}\n";
    assert "```\n{\n\"a\": 1\n}\n```" == Fence + "\n" + "{" + "\n" + rest + Fence;
    assert NoFenceIn("\n" + "{" + "\n" + rest) by {
      var b := "\n" + "{" + "\n" + rest;
      forall j | 0 <= j < |b| ensures !At(b + Fence, Fence, j) {
        assert (b + Fence)[j] != '`';
      }
    }
    assert RStrip(rest) == "\"a\": 1\n}" by {
      assert rest == "\"a\": 1\n}" + "\n";
      assert RStrip("\"a\": 1\n}") == "\"a\": 1\n}";
    }
    UntaggedFenceDropsFirstLine("{", rest);
  }

  /**
   * Corrected fence step: the tag line is dropped from the raw fence body
   * before trimming, so only a tag (possibly empty) is ever removed.
   */
  function UnfenceIntended(cleaned: string): string {
    if StartsWith(cleaned, Fence) then Strip(DropFirstLine(FirstFenceBody(cleaned))) else cleaned
  }

  /** With the corrected step every fence keeps its whole body, tagged or not. */
  lemma {:induction false} UnfenceIntendedKeepsBody(tag: string, body: string)
    requires forall j :: 0 <= j < |tag| ==> !IsSpace(tag[j]) && tag[j] != '`'
    requires NoFenceIn(tag + "\n" + body)
    ensures UnfenceIntended(Strip(Fence + tag + "\n" + body + Fence)) == Strip(body)
  {
    var b := tag + "\n" + body;
    var s := Fence + b + Fence;
    assert Fence + tag + "\n" + body + Fence == s;
    assert LStrip(s) == s;
    assert RStrip(s) == s;
    assert Strip(s) == s;
    FenceBodyOf(b, "");
    assert s == Fence + b + Fence + "";
    AfterTagLine(tag, body);
  }
}
