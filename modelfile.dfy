/** The model-file text the gateway writes in `save_model_config` and
    scans in `_extract_parameters`, `_extract_template` and
    `_extract_system`. The scanners are not the inverse of the builder:
    only parameters come back, and only when keys and values are plain
    enough; the template comes back empty and the system prompt keeps its
    triple quotes. */
module Modelfile {
  import opened Json
  import opened Strings

  /** One `PARAMETER` entry: key and the text of its value. */
  type Parameter = (string, string)

  function ParameterLine(p: Parameter): string {
    "PARAMETER " + p.0 + " " + p.1
  }

  function SystemLine(system: string): string {
    "SYSTEM \"\"\"" + system + "\"\"\""
  }

  function TemplateLine(template: string): string {
    "TEMPLATE \"\"\"" + template + "\"\"\""
  }

  /** The parameter lines, each ending in a newline, in iteration order. */
  function ParameterBlock(ps: seq<Parameter>): string {
    if ps == [] then "" else ParameterLine(ps[0]) + "\n" + ParameterBlock(ps[1..])
  }

  function Header(name: string): string {
    FromLine(name) + "\n"
  }

  /** The `SYSTEM` line, present only for a non-empty (truthy) prompt. */
  function SystemPart(system: string): string {
    if system != "" then SystemLine(system) + "\n" else ""
  }

  /** The `TEMPLATE` line, present only for a non-empty (truthy) template. */
  function TemplatePart(template: string): string {
    if template != "" then TemplateLine(template) + "\n" else ""
  }

  /** The model file the builder produces: the `FROM` line, one line per
      parameter, then the `SYSTEM` and `TEMPLATE` lines. */
  function Text(name: string, ps: seq<Parameter>, system: string, template: string): (r: string)
    ensures StartsWith(r, Header(name))
    ensures r != [] && r[|r| - 1] == '\n'
  {
    var h, b, sp := Header(name), ParameterBlock(ps), SystemPart(system);
    StartsWithAppend(h, b);
    StartsWithExtend(h + b, sp, h);
    StartsWithExtend(h + b + sp, TemplatePart(template), h);
    ParameterBlockEnded(ps);
    LinesEndedAppend(h, b);
    LinesEndedAppend(h + b, sp);
    LinesEndedAppend(h + b + sp, TemplatePart(template));
    h + b + sp + TemplatePart(template)
  }

  /** A text keeps its prefixes when more is appended. */
  lemma StartsWithExtend(s: string, t: string, p: string)
    requires StartsWith(s, p)
    ensures StartsWith(s + t, p)
  {
    assert (s + t)[..|p|] == s[..|p|];
  }

  lemma {:induction false} ParameterBlockAppend(a: seq<Parameter>, b: seq<Parameter>)
    ensures ParameterBlock(a + b) == ParameterBlock(a) + ParameterBlock(b)
    decreases |a|
  {
    if a != [] {
      assert (a + b)[1..] == a[1..] + b;
      ParameterBlockAppend(a[1..], b);
    } else {
      assert a + b == b;
    }
  }

  /** Builds the model file line by line, as `save_model_config` does with
      `+=`; absent and empty prompts are both passed as "". */
  method Build(name: string, ps: seq<Parameter>, system: string, template: string) returns (modelfile: string)
    ensures StartsWith(modelfile, Header(name))
    ensures modelfile == Text(name, ps, system, template)
  {
    modelfile := Header(name);
    if ps != [] {
      modelfile := AppendParameters(modelfile, ps);
    } else {
      AppendNothing(modelfile);
    }
    ghost var block := modelfile;
    if system != "" {
      modelfile := modelfile + (SystemLine(system) + "\n");
    } else {
      AppendNothing(block);
    }
    ghost var withSystem := modelfile;
    if template != "" {
      modelfile := modelfile + (TemplateLine(template) + "\n");
    } else {
      AppendNothing(withSystem);
    }
  }

  /** The `for key, value in parameters.items()` loop of the builder. */
  method AppendParameters(text: string, ps: seq<Parameter>) returns (modelfile: string)
    ensures modelfile == text + ParameterBlock(ps)
  {
    modelfile := text;
    for i := 0 to |ps|
      invariant modelfile == text + ParameterBlock(ps[..i])
    {
      BlockStep(text, ps, i);
      modelfile := modelfile + (ParameterLine(ps[i]) + "\n");
    }
    assert ps[..|ps|] == ps;
  }

  lemma AppendNothing(s: string)
    ensures s + "" == s
  {
  }

  /** One turn of the parameter loop appends one line to the block. */
  lemma BlockStep(prefix: string, ps: seq<Parameter>, i: nat)
    requires i < |ps|
    ensures prefix + ParameterBlock(ps[..i]) + (ParameterLine(ps[i]) + "\n") == prefix + ParameterBlock(ps[..i + 1])
  {
    BlockSnoc(ps, i);
    assert prefix + ParameterBlock(ps[..i + 1]) == prefix + (ParameterBlock(ps[..i]) + (ParameterLine(ps[i]) + "\n"));
  }

  lemma BlockSnoc(ps: seq<Parameter>, i: nat)
    requires i < |ps|
    ensures ParameterBlock(ps[..i + 1]) == ParameterBlock(ps[..i]) + (ParameterLine(ps[i]) + "\n")
  {
    ParameterBlockAppend(ps[..i], [ps[i]]);
    assert ps[..i + 1] == ps[..i] + [ps[i]];
    assert [ps[i]][1..] == [];
  }

  /** Every line of the builder's output, the last one included, ends in a newline. */
  predicate LinesEnded(s: string) {
    s == [] || s[|s| - 1] == '\n'
  }

  lemma LinesEndedAppend(a: string, b: string)
    requires LinesEnded(a) && LinesEnded(b)
    ensures LinesEnded(a + b)
  {
    if b == [] {
      assert a + b == a;
    }
  }

  lemma {:induction false} ParameterBlockEnded(ps: seq<Parameter>)
    ensures LinesEnded(ParameterBlock(ps))
    decreases |ps|
  {
    if ps != [] {
      ParameterBlockEnded(ps[1..]);
      LinesEndedAppend(ParameterLine(ps[0]) + "\n", ParameterBlock(ps[1..]));
    }
  }

  /** `line.split('\n')[0]` on the text from a keyword onwards. */
  function FirstLine(s: string): string {
    Split(s, '\n')[0]
  }

  /** The first line is the text before the first newline. */
  lemma FirstLineIsPrefix(s: string)
    ensures IndexOf(s, '\n') == -1 ==> FirstLine(s) == s
    ensures IndexOf(s, '\n') != -1 ==> FirstLine(s) == s[..IndexOf(s, '\n')]
  {
    var k := IndexOf(s, '\n');
    if k == -1 {
      SplitNoSeparator(s, '\n');
    } else {
      assert s == s[..k] + ['\n'] + s[k + 1..];
      SplitLine(s[..k], s[k + 1..], '\n');
    }
  }

  /** A text that starts with a newline-free prefix keeps it on its first line. */
  lemma FirstLineKeepsPrefix(s: string, p: string)
    requires StartsWith(s, p) && '\n' !in p
    ensures StartsWith(FirstLine(s), p)
  {
    FirstLineIsPrefix(s);
    var k := IndexOf(s, '\n');
    if k != -1 {
      assert forall i :: 0 <= i < |p| ==> s[i] == p[i];
      assert s[..k][..|p|] == p;
    }
  }

  /** The line has at least two spaces, so `split(' ', 2)` gives three parts. */
  predicate TwoSpaces(line: string) {
    exists i, j :: 0 <= i < j < |line| && line[i] == ' ' && line[j] == ' '
  }

  /** `_extract_parameters` for one line: a line starting with `PARAMETER`
      that splits into at least three parts on its first two spaces; the
      value is the rest with surrounding quotes stripped. */
  function ParseParameterLine(line: string): (r: Option<Parameter>)
    ensures r.Some? ==> StartsWith(line, "PARAMETER")
    ensures r.Some? ==> ' ' !in r.value.0
    ensures r.Some? && r.value.1 != "" ==> r.value.1[0] != '"' && r.value.1[|r.value.1| - 1] != '"'
  {
    if !StartsWith(line, "PARAMETER") then None
    else
      var i := IndexOf(line, ' ');
      if i == -1 then None
      else
        var rest := line[i + 1..];
        var j := IndexOf(rest, ' ');
        if j == -1 then None
        else Some((rest[..j], Strip(rest[j + 1..], IsQuote)))
  }

  /** A line is a parameter line exactly when it starts with `PARAMETER`
      and holds at least two spaces. */
  lemma ParseParameterLineDefined(line: string)
    ensures ParseParameterLine(line).Some? <==> StartsWith(line, "PARAMETER") && TwoSpaces(line)
  {
    if StartsWith(line, "PARAMETER") {
      var i := IndexOf(line, ' ');
      if i != -1 {
        var rest := line[i + 1..];
        var j := IndexOf(rest, ' ');
        if j == -1 {
          assert !TwoSpaces(line) by {
            forall a, b | 0 <= a < b < |line| && line[a] == ' '
              ensures line[b] != ' '
            {
              assert i <= a;
              assert 0 <= b - i - 1 < |rest| && rest[b - i - 1] == line[b];
            }
          }
        } else {
          assert line[i] == ' ' && line[i + 1 + j] == rest[j];
        }
      }
    }
  }

  /** Any `PARAMETER` line: the key is the text between the first two
      spaces, the value the rest with surrounding quotes stripped. */
  lemma ParseParameterLineParts(head: string, key: string, v: string)
    requires StartsWith(head, "PARAMETER") && ' ' !in head && ' ' !in key
    ensures ParseParameterLine(head + [' '] + (key + [' '] + v)) == Some((key, Strip(v, IsQuote)))
  {
    var rest := key + [' '] + v;
    var line := head + [' '] + rest;
    StartsWithPrefix(head, [' '] + rest, "PARAMETER");
    ConcatAssoc(head, [' '], rest);
    IndexOfJoint(head, rest, ' ');
    JointParts(head, ' ', rest);
    IndexOfJoint(key, v, ' ');
    JointParts(key, ' ', v);
  }

  /** The parameters of a sequence of lines; a later key overwrites an earlier one. */
  function ParamsFromLines(lines: seq<string>): map<string, string> {
    FoldParams(lines, ParseParameterLine)
  }

  /** The loop of `_extract_parameters`, over any way of reading one line. */
  function FoldParams(lines: seq<string>, parse: string -> Option<Parameter>): map<string, string>
    decreases |lines|
  {
    if lines == [] then map[]
    else
      var m := FoldParams(lines[..|lines| - 1], parse);
      match parse(lines[|lines| - 1])
      case None => m
      case Some(p) => m[p.0 := p.1]
  }

  /** The line sets the parameter `k`. */
  predicate Sets(line: string, k: string) {
    SetsBy(ParseParameterLine, line, k)
  }

  predicate SetsBy(parse: string -> Option<Parameter>, line: string, k: string) {
    parse(line).Some? && parse(line).value.0 == k
  }

  /** One more line: the key it sets gets its value; other keys keep theirs. */
  lemma FoldStep(lines: seq<string>, parse: string -> Option<Parameter>, k: string)
    requires lines != []
    ensures var m, f, last := FoldParams(lines, parse), FoldParams(lines[..|lines| - 1], parse), lines[|lines| - 1];
      && (k in m <==> k in f || SetsBy(parse, last, k))
      && (k in f && !SetsBy(parse, last, k) ==> m[k] == f[k])
      && (SetsBy(parse, last, k) ==> k in m && m[k] == parse(last).value.1)
  {
  }

  lemma {:induction false} FoldKeys(lines: seq<string>, parse: string -> Option<Parameter>, k: string)
    ensures k in FoldParams(lines, parse) <==> exists i :: 0 <= i < |lines| && SetsBy(parse, lines[i], k)
    decreases |lines|
  {
    if lines != [] {
      var n := |lines|;
      var front := lines[..n - 1];
      FoldKeys(front, parse, k);
      FoldStep(lines, parse, k);
      if SetsBy(parse, lines[n - 1], k) {
      } else if k in FoldParams(front, parse) {
        var i :| 0 <= i < n - 1 && SetsBy(parse, front[i], k);
        assert front[i] == lines[i];
      } else {
        forall i | 0 <= i < n
          ensures !SetsBy(parse, lines[i], k)
        {
          if i < n - 1 {
            assert front[i] == lines[i];
          }
        }
      }
    }
  }

  lemma {:induction false} FoldLastWins(lines: seq<string>, parse: string -> Option<Parameter>, n: nat, i: nat, k: string)
    requires i < n <= |lines| && SetsBy(parse, lines[i], k)
    requires forall j :: i < j < n ==> !SetsBy(parse, lines[j], k)
    ensures k in FoldParams(lines[..n], parse) && FoldParams(lines[..n], parse)[k] == parse(lines[i]).value.1
    decreases n
  {
    FoldStep(lines[..n], parse, k);
    assert lines[..n][..n - 1] == lines[..n - 1];
    assert lines[..n][n - 1] == lines[n - 1];
    if i < n - 1 {
      FoldLastWins(lines, parse, n - 1, i, k);
    }
  }

  /** The dictionary holds exactly the keys some line sets. */
  lemma ParamsFromLinesKeys(lines: seq<string>, k: string)
    ensures k in ParamsFromLines(lines) <==> exists i :: 0 <= i < |lines| && Sets(lines[i], k)
  {
    FoldKeys(lines, ParseParameterLine, k);
  }

  /** Each key has the value of the last line that sets it. */
  lemma ParamsFromLinesLastWins(lines: seq<string>, i: nat, k: string)
    requires i < |lines| && Sets(lines[i], k)
    requires forall j :: i < j < |lines| ==> !Sets(lines[j], k)
    ensures k in ParamsFromLines(lines) && ParamsFromLines(lines)[k] == ParseParameterLine(lines[i]).value.1
  {
    FoldLastWins(lines, ParseParameterLine, |lines|, i, k);
    assert lines[..|lines|] == lines;
  }

  /** Scanning one more line. */
  lemma ParamsFromLinesSnoc(lines: seq<string>, i: nat)
    requires i < |lines|
    ensures ParamsFromLines(lines[..i + 1]) ==
      match ParseParameterLine(lines[i])
      case None => ParamsFromLines(lines[..i])
      case Some(p) => ParamsFromLines(lines[..i])[p.0 := p.1]
  {
    assert lines[..i + 1][..i] == lines[..i];
    assert lines[..i + 1][i] == lines[i];
  }

  /** `_extract_parameters`: fills a dictionary line by line. */
  method ExtractParameters(modelfile: string) returns (params: map<string, string>)
    ensures forall k :: k in params ==> ' ' !in k
    ensures params == ParamsFromLines(Split(modelfile, '\n'))
  {
    var lines := Split(modelfile, '\n');
    params := map[];
    for i := 0 to |lines|
      invariant forall k :: k in params ==> ' ' !in k
      invariant params == ParamsFromLines(lines[..i])
    {
      ParamsFromLinesSnoc(lines, i);
      var p := ParseParameterLine(lines[i]);
      if p.Some? {
        params := params[p.value.0 := p.value.1];
      }
    }
    assert lines[..|lines|] == lines;
  }

  /** `_extract_template`: the text between the first two double quotes of
      the line where `TEMPLATE` first occurs, or "" when there is none. */
  function ExtractTemplate(modelfile: string): (r: string)
    ensures !Contains(modelfile, "TEMPLATE") ==> r == ""
    ensures '"' !in r
  {
    var start := Find(modelfile, "TEMPLATE");
    if start == -1 then "" else QuotedText(FirstLine(modelfile[start..]))
  }

  /** `line.split('"')[1] if '"' in line else ""`: the text between the
      first two double quotes, or up to the end after a lone one. */
  function QuotedText(line: string): (r: string)
    ensures '"' !in r
  {
    if '"' in line then
      var parts := Split(line, '"');
      SplitJoin(line, '"');
      assert |parts| >= 2;
      parts[1]
    else ""
  }

  /** The text between the first two double quotes. */
  lemma QuotedTextBetween(h: string, x: string, f: string)
    requires '"' !in h && '"' !in x
    ensures QuotedText(h + ['"'] + (x + ['"'] + f)) == x
  {
    var line := h + ['"'] + (x + ['"'] + f);
    assert line[|h|] == '"';
    SplitLine(h, x + ['"'] + f, '"');
    SplitLine(x, f, '"');
  }

  /** A lone double quote: the text after it. */
  lemma QuotedTextLone(h: string, f: string)
    requires '"' !in h && '"' !in f
    ensures QuotedText(h + ['"'] + f) == f
  {
    assert (h + ['"'] + f)[|h|] == '"';
    SplitLine(h, f, '"');
    SplitNoSeparator(f, '"');
  }

  /** `_extract_system`: the rest of the line after the first `SYSTEM`,
      with surrounding whitespace removed, or "" when there is none. */
  function ExtractSystem(modelfile: string): (r: string)
    ensures !Contains(modelfile, "SYSTEM") ==> r == ""
    ensures r != "" ==> !IsSpace(r[0]) && !IsSpace(r[|r| - 1])
  {
    var start := Find(modelfile, "SYSTEM");
    if start == -1 then ""
    else
      var rest := modelfile[start..];
      assert rest[..6] == "SYSTEM";
      FirstLineKeepsPrefix(rest, "SYSTEM");
      var line := FirstLine(rest);
      Strip(line[6..], IsSpace)
  }

  /** No occurrence of `kw` starts inside `p`: a `kw` written right after
      `p` is the first one in the text. */
  predicate ClearBefore(p: string, kw: string) {
    kw != [] && !Contains(p + kw[..|kw| - 1], kw)
  }

  /** A keyword at a line start with no earlier occurrence is clear. */
  lemma ClearAtLineStart(p: string, kw: string)
    requires kw != [] && '\n' !in kw
    requires p == [] || (!Contains(p, kw) && p[|p| - 1] == '\n')
    ensures ClearBefore(p, kw)
  {
    var s := p + kw[..|kw| - 1];
    forall i | 0 <= i
      ensures !OccursAt(s, kw, i)
    {
      if i + |kw| <= |p| {
        assert s[i..i + |kw|] == p[i..i + |kw|];
        assert !OccursAt(p, kw, i);
      } else if i < |p| && i + |kw| <= |s| {
        assert s[|p| - 1] == '\n';
        assert s[i..i + |kw|][|p| - 1 - i] == s[|p| - 1];
      }
    }
  }

  /** The first line of `u + rest`, for `u` without a newline. */
  lemma FirstLineOfJoint(u: string, rest: string)
    requires '\n' !in u
    ensures FirstLine(u + rest) == u + FirstLine(rest)
  {
    SplitFirstJoint(u, rest, '\n');
  }

  /** `find` locates a keyword written right after text that is clear of it. */
  lemma FindKeywordAfter(p: string, kw: string, v: string)
    requires ClearBefore(p, kw)
    ensures Find(p + (kw + v), kw) == |p| && (p + (kw + v))[|p|..] == kw + v
  {
    var q := kw + v;
    var s, c := p + q, p + kw[..|kw| - 1];
    assert s[|p|..|p| + |kw|] == kw;
    assert OccursAt(s, kw, |p|);
    forall i | 0 <= i < |p|
      ensures !OccursAt(s, kw, i)
    {
      assert s[i..i + |kw|] == c[i..i + |kw|];
      assert !OccursAt(c, kw, i);
    }
    assert s[|p|..] == q;
  }

  /** The system scanner returns the rest of the first `SYSTEM` line,
      stripped of whitespace. */
  lemma SystemOfFirstLine(p: string, v: string)
    requires ClearBefore(p, "SYSTEM")
    ensures ExtractSystem(p + ("SYSTEM" + v)) == Strip(FirstLine(v), IsSpace)
  {
    FindKeywordAfter(p, "SYSTEM", v);
    FirstLineOfJoint("SYSTEM", v);
    assert ("SYSTEM" + FirstLine(v))[6..] == FirstLine(v);
  }

  /** A `SYSTEM` line ended by a newline gives its text after the keyword, stripped. */
  lemma SystemOfLine(p: string, x: string, rest: string)
    requires ClearBefore(p, "SYSTEM") && '\n' !in x
    ensures ExtractSystem(p + "SYSTEM" + x + "\n" + rest) == Strip(x, IsSpace)
  {
    var v := x + "\n" + rest;
    assert p + "SYSTEM" + x + "\n" + rest == p + ("SYSTEM" + v);
    SystemOfFirstLine(p, v);
    SplitLine(x, rest, '\n');
  }

  /** The template scanner reads the first `TEMPLATE` line only. */
  lemma TemplateOfFirstLine(p: string, v: string)
    requires ClearBefore(p, "TEMPLATE")
    ensures ExtractTemplate(p + ("TEMPLATE" + v)) == QuotedText("TEMPLATE" + FirstLine(v))
  {
    FindKeywordAfter(p, "TEMPLATE", v);
    FirstLineOfJoint("TEMPLATE", v);
  }

  /** The template scanner returns the text between the first two double
      quotes of the first `TEMPLATE` line. */
  lemma TemplateBetweenQuotes(p: string, a: string, x: string, rest: string)
    requires ClearBefore(p, "TEMPLATE")
    requires '"' !in a && '"' !in x && '\n' !in a && '\n' !in x
    ensures ExtractTemplate(p + "TEMPLATE" + a + "\"" + x + "\"" + rest) == x
  {
    var u := a + "\"" + x + "\"";
    QuotedLineJoint(p, "TEMPLATE", a, x, rest);
    TemplateOfFirstLine(p, u + rest);
    NoQuoteInKeywords();
    QuotedAfterKeyword("TEMPLATE", a, x, rest);
  }

  /** A first `TEMPLATE` line without a double quote gives "". */
  lemma TemplateWithoutQuote(p: string, a: string, rest: string)
    requires ClearBefore(p, "TEMPLATE") && '"' !in a && '\n' !in a
    ensures ExtractTemplate(p + "TEMPLATE" + a + "\n" + rest) == ""
  {
    LineJoint(p, "TEMPLATE", a, rest);
    TemplateOfFirstLine(p, a + "\n" + rest);
    NoQuoteInKeywords();
    UnquotedAfterKeyword("TEMPLATE", a, rest);
  }

  /** A first `TEMPLATE` line with a single double quote gives the rest of
      the line after it. */
  lemma TemplateLoneQuote(p: string, a: string, x: string, rest: string)
    requires ClearBefore(p, "TEMPLATE")
    requires '"' !in a && '"' !in x && '\n' !in a && '\n' !in x
    ensures ExtractTemplate(p + "TEMPLATE" + a + "\"" + x + "\n" + rest) == x
  {
    LoneQuoteJoint(p, "TEMPLATE", a, x, rest);
    TemplateOfFirstLine(p, (a + "\"" + x) + "\n" + rest);
    NoQuoteInKeywords();
    UnclosedAfterKeyword("TEMPLATE", a, x, rest);
  }

  lemma NoQuoteInKeywords()
    ensures '"' !in "TEMPLATE"
  {
  }

  /** Regrouping `p k a "x" rest` so that the keyword starts the right half. */
  lemma QuotedLineJoint(p: string, k: string, a: string, x: string, rest: string)
    ensures p + k + a + "\"" + x + "\"" + rest == p + (k + ((a + "\"" + x + "\"") + rest))
  {
    var q := "\"";
    ConcatAssoc(p + k, a, q);
    ConcatAssoc(p + k, a + q, x);
    ConcatAssoc(p + k, a + q + x, q);
    ConcatAssoc(p + k, a + q + x + q, rest);
    ConcatAssoc(p, k, a + q + x + q + rest);
  }

  /** Regrouping `p k a \n rest` so that the keyword starts the right half. */
  lemma LineJoint(p: string, k: string, a: string, rest: string)
    ensures p + k + a + "\n" + rest == p + (k + (a + "\n" + rest))
  {
    var n := "\n";
    ConcatAssoc(p + k, a, n);
    ConcatAssoc(p + k, a + n, rest);
    ConcatAssoc(p, k, a + n + rest);
  }

  /** After a quote-free keyword, the quoted text of a line `a "x" …` is `x`. */
  lemma QuotedAfterKeyword(k: string, a: string, x: string, rest: string)
    requires '"' !in k && '"' !in a && '"' !in x && '\n' !in a && '\n' !in x
    ensures QuotedText(k + FirstLine((a + "\"" + x + "\"") + rest)) == x
  {
    var u := a + "\"" + x + "\"";
    FirstLineOfJoint(u, rest);
    var f := FirstLine(rest);
    ConcatAssoc(k, u, f);
    QuotedLineShape(k, a, x, f);
    NotInJoint('"', k, a);
    QuotedTextBetween(k + a, x, f);
  }

  /** Regrouping `p k a "x \n rest` so that the keyword starts the right half. */
  lemma LoneQuoteJoint(p: string, k: string, a: string, x: string, rest: string)
    ensures p + k + a + "\"" + x + "\n" + rest == p + (k + ((a + "\"" + x) + "\n" + rest))
  {
    var q := "\"";
    ConcatAssoc(p + k, a, q);
    ConcatAssoc(p + k, a + q, x);
    LineJoint(p, k, a + q + x, rest);
  }

  /** After a quote-free keyword, the quoted text of a line `a "x` is `x`. */
  lemma UnclosedAfterKeyword(k: string, a: string, x: string, rest: string)
    requires '"' !in k && '"' !in a && '"' !in x && '\n' !in a && '\n' !in x
    ensures QuotedText(k + FirstLine((a + "\"" + x) + "\n" + rest)) == x
  {
    var u := a + "\"" + x;
    SplitLine(u, rest, '\n');
    ConcatAssoc(k, a + "\"", x);
    ConcatAssoc(k, a, "\"");
    NotInJoint('"', k, a);
    QuotedTextLone(k + a, x);
  }

  /** After a quote-free keyword, a line without a quote has no quoted text. */
  lemma UnquotedAfterKeyword(k: string, a: string, rest: string)
    requires '"' !in k && '"' !in a && '\n' !in a
    ensures QuotedText(k + FirstLine(a + "\n" + rest)) == ""
  {
    SplitLine(a, rest, '\n');
    NotInJoint('"', k, a);
  }

  /** Regrouping a keyword line `k a "x" f` around its two quotes. */
  lemma QuotedLineShape(k: string, a: string, x: string, f: string)
    ensures k + ((a + ['"'] + x + ['"']) + f) == (k + a) + ['"'] + (x + ['"'] + f)
  {
    ConcatAssoc(a + ['"'] + x, ['"'], f);
    ConcatAssoc(a + ['"'], x, ['"'] + f);
    ConcatAssoc(a, ['"'], x + ['"'] + f);
    ConcatAssoc(k, a, ['"'] + (x + ['"'] + f));
    ConcatAssoc(k + a, ['"'], x + ['"'] + f);
  }

  /** A character missing from both halves is missing from their join. */
  lemma NotInJoint(c: char, s: string, t: string)
    requires c !in s && c !in t
    ensures c !in s + t
  {
  }

  // ---------------------------------------------------------------------
  // What the scanners give back on builder output.

  /** The condition under which a parameter survives building and scanning:
      its key has no space or newline, its value no newline and no leading
      or trailing double quote. */
  predicate PlainParameter(p: Parameter) {
    ' ' !in p.0 && '\n' !in p.0 && '\n' !in p.1
    && (p.1 != "" ==> p.1[0] != '"' && p.1[|p.1| - 1] != '"')
  }

  /** The dictionary a parameter sequence denotes: later keys win. */
  function ToMap(ps: seq<Parameter>): map<string, string>
    decreases |ps|
  {
    if ps == [] then map[] else ToMap(ps[..|ps| - 1])[ps[|ps| - 1].0 := ps[|ps| - 1].1]
  }

  function ParameterLines(ps: seq<Parameter>): seq<string> {
    seq(|ps|, i requires 0 <= i < |ps| => ParameterLine(ps[i]))
  }

  /** A plain parameter line scans back to its key and value. */
  lemma ParseParameterLineBuilt(p: Parameter)
    requires PlainParameter(p)
    ensures ParseParameterLine(ParameterLine(p)) == Some(p)
  {
    ParameterLineShape(p);
    assert StartsWith("PARAMETER", "PARAMETER");
    ParseParameterLineParts("PARAMETER", p.0, p.1);
    StripUntouched(p.1, IsQuote);
  }

  /** A parameter line as the keyword, a space, the key, a space and the value. */
  lemma ParameterLineShape(p: Parameter)
    ensures ParameterLine(p) == "PARAMETER" + [' '] + (p.0 + [' '] + p.1)
  {
    var k := "PARAMETER" + [' '];
    assert "PARAMETER " == k;
    ConcatAssoc(k, p.0, " ");
    ConcatAssoc(k, p.0 + " ", p.1);
  }

  lemma ParameterLineOneLine(p: Parameter)
    requires PlainParameter(p)
    ensures '\n' !in ParameterLine(p)
  {
    assert ParameterLine(p) == "PARAMETER " + (p.0 + (" " + p.1));
  }

  /** The parameter block is the parameter lines, each ended by a newline. */
  lemma {:induction false} ParameterBlockLines(ps: seq<Parameter>)
    ensures ParameterBlock(ps) == Terminated(ParameterLines(ps), '\n')
    decreases |ps|
  {
    if ps != [] {
      ParameterBlockLines(ps[1..]);
      ParameterLinesCons(ps);
      assert ParameterLines(ps)[1..] == ParameterLines(ps[1..]);
    }
  }

  /** Splitting the parameter block yields one line per parameter. */
  lemma SplitParameterBlock(ps: seq<Parameter>, rest: string)
    requires forall i :: 0 <= i < |ps| ==> PlainParameter(ps[i])
    ensures Split(ParameterBlock(ps) + rest, '\n') == ParameterLines(ps) + Split(rest, '\n')
  {
    ParameterBlockLines(ps);
    var lines := ParameterLines(ps);
    forall i | 0 <= i < |lines|
      ensures '\n' !in lines[i]
    {
      ParameterLineOneLine(ps[i]);
    }
    SplitTerminated(lines, rest, '\n');
  }

  lemma ParameterLinesCons(ps: seq<Parameter>)
    requires ps != []
    ensures ParameterLines(ps) == [ParameterLine(ps[0])] + ParameterLines(ps[1..])
  {
  }

  /** No line starts with the `PARAMETER` keyword. */
  predicate NoParameterLines(lines: seq<string>) {
    forall i :: 0 <= i < |lines| ==> !StartsWith(lines[i], "PARAMETER")
  }

  /** A line that is not a parameter line leaves the dictionary alone. */
  lemma ParamsSnocOther(x: seq<string>, l: string)
    requires !StartsWith(l, "PARAMETER")
    ensures ParamsFromLines(x + [l]) == ParamsFromLines(x)
  {
    var xs := x + [l];
    assert xs[..|xs| - 1] == x;
    assert xs[|xs| - 1] == l;
  }

  /** Lines that are not parameter lines leave the dictionary alone. */
  lemma {:induction false} ParamsIgnoreOtherLines(a: seq<string>, b: seq<string>)
    requires NoParameterLines(b)
    ensures ParamsFromLines(a + b) == ParamsFromLines(a)
    decreases |b|
  {
    if b != [] {
      var b', l := b[..|b| - 1], b[|b| - 1];
      assert a + b == (a + b') + [l];
      ParamsSnocOther(a + b', l);
      ParamsIgnoreOtherLines(a, b');
    } else {
      assert a + b == a;
    }
  }

  /** Scanning the `FROM` line and the parameter lines gives the parameters' dictionary. */
  lemma {:induction false} ParamsOfParameterLines(from: string, ps: seq<Parameter>)
    requires !StartsWith(from, "PARAMETER")
    requires forall i :: 0 <= i < |ps| ==> PlainParameter(ps[i])
    ensures ParamsFromLines([from] + ParameterLines(ps)) == ToMap(ps)
    decreases |ps|
  {
    if ps == [] {
      assert [from] + ParameterLines(ps) == [from];
      assert ParamsFromLines([from]) == ParamsFromLines([from][..0]);
    } else {
      var n := |ps|;
      var lines := [from] + ParameterLines(ps);
      assert lines[..|lines| - 1] == [from] + ParameterLines(ps[..n - 1]);
      assert lines[|lines| - 1] == ParameterLine(ps[n - 1]);
      ParamsOfParameterLines(from, ps[..n - 1]);
      ParseParameterLineBuilt(ps[n - 1]);
    }
  }

  /** The lines of the `SYSTEM` and `TEMPLATE` parts, without their newlines. */
  function TailLines(system: string, template: string): seq<string> {
    (if system != "" then [SystemLine(system)] else []) + (if template != "" then [TemplateLine(template)] else [])
  }

  lemma PartLineOneLine(system: string, template: string)
    requires '\n' !in system && '\n' !in template
    ensures '\n' !in SystemLine(system) && '\n' !in TemplateLine(template)
  {
    assert SystemLine(system) == "SYSTEM \"\"\"" + (system + "\"\"\"");
    assert TemplateLine(template) == "TEMPLATE \"\"\"" + (template + "\"\"\"");
  }

  /** Splitting the `SYSTEM` and `TEMPLATE` parts gives their lines and a final empty piece. */
  lemma SplitTail(system: string, template: string)
    requires '\n' !in system && '\n' !in template
    ensures Split(SystemPart(system) + TemplatePart(template), '\n') == TailLines(system, template) + [""]
  {
    PartLineOneLine(system, template);
    var t := TemplatePart(template);
    assert Split("", '\n') == [""];
    if template != "" {
      assert t == TemplateLine(template) + ['\n'] + "";
      SplitLine(TemplateLine(template), "", '\n');
    }
    assert Split(t, '\n') == (if template != "" then [TemplateLine(template)] else []) + [""];
    if system != "" {
      assert SystemPart(system) + t == SystemLine(system) + ['\n'] + t;
      SplitLine(SystemLine(system), t, '\n');
    } else {
      assert SystemPart(system) + t == t;
    }
  }

  lemma TailNotParameter(system: string, template: string)
    ensures NoParameterLines(TailLines(system, template) + [""])
  {
    var kw := "PARAMETER";
    var tail := TailLines(system, template) + [""];
    forall i | 0 <= i < |tail|
      ensures !StartsWith(tail[i], kw)
    {
      var l := tail[i];
      assert l == SystemLine(system) || l == TemplateLine(template) || l == "";
      assert l == "" || l[0] == 'S' || l[0] == 'T';
      assert |l| >= |kw| ==> l[..|kw|][0] != kw[0];
    }
  }

  /** The lines of builder output, as `split('\n')` sees them. */
  lemma SplitText(name: string, ps: seq<Parameter>, system: string, template: string)
    requires '\n' !in name && '\n' !in system && '\n' !in template
    requires forall i :: 0 <= i < |ps| ==> PlainParameter(ps[i])
    ensures Split(Text(name, ps, system, template), '\n')
      == [FromLine(name)] + ParameterLines(ps) + (TailLines(system, template) + [""])
  {
    var rest := SystemPart(system) + TemplatePart(template);
    TextShape(name, ps, system, template);
    assert '\n' !in FromLine(name);
    SplitLine(FromLine(name), ParameterBlock(ps) + rest, '\n');
    SplitParameterBlock(ps, rest);
    SplitTail(system, template);
    ConcatAssoc([FromLine(name)], ParameterLines(ps), TailLines(system, template) + [""]);
  }

  /** The builder's text as its first line, a newline and the rest. */
  lemma TextShape(name: string, ps: seq<Parameter>, system: string, template: string)
    ensures Text(name, ps, system, template)
      == FromLine(name) + ['\n'] + (ParameterBlock(ps) + (SystemPart(system) + TemplatePart(template)))
  {
    var h, b, s, t := FromLine(name) + ['\n'], ParameterBlock(ps), SystemPart(system), TemplatePart(template);
    assert Header(name) == h;
    ConcatAssoc(h + b, s, t);
    ConcatAssoc(h, b, s + t);
  }

  function FromLine(name: string): string {
    "FROM " + name
  }

  /** Parameters round-trip through building and scanning when every
      parameter is plain and the model name, system prompt and template
      contain no newline. */
  lemma ParametersRoundTrip(name: string, ps: seq<Parameter>, system: string, template: string)
    requires '\n' !in name && '\n' !in system && '\n' !in template
    requires forall i :: 0 <= i < |ps| ==> PlainParameter(ps[i])
    ensures ParamsFromLines(Split(Text(name, ps, system, template), '\n')) == ToMap(ps)
  {
    SplitText(name, ps, system, template);
    TailNotParameter(system, template);
    var tail := TailLines(system, template) + [""];
    ParamsIgnoreOtherLines([FromLine(name)] + ParameterLines(ps), tail);
    assert FromLine(name)[0] == 'F';
    ParamsOfParameterLines(FromLine(name), ps);
  }

  /** The first occurrence of `t` in `p + q` is at `|p|` when `p` does not
      contain it, `p` ends in a character outside `t`, and `q` starts with it. */
  lemma FindAtJoint(p: string, q: string, t: string)
    requires !Contains(p, t) && p != [] && p[|p| - 1] !in t
    requires StartsWith(q, t)
    ensures Find(p + q, t) == |p|
  {
    var s := p + q;
    assert s[|p|..|p| + |t|] == t;
    assert OccursAt(s, t, |p|);
    forall i | 0 <= i < |p|
      ensures !OccursAt(s, t, i)
    {
      if i + |t| <= |p| {
        assert s[i..i + |t|] == p[i..i + |t|];
        assert !OccursAt(p, t, i);
      } else {
        assert s[|p| - 1] == p[|p| - 1];
        assert s[|p| - 1] != t[|p| - 1 - i];
        assert s[i..i + |t|][|p| - 1 - i] == s[|p| - 1];
      }
    }
  }

  lemma TextWithTemplate(name: string, ps: seq<Parameter>, system: string, template: string)
    requires template != ""
    ensures Text(name, ps, system, template) == Text(name, ps, system, "") + (TemplateLine(template) + "\n")
  {
  }

  /** The line the template scanner reads from builder output is the builder's template line. */
  lemma FindTemplateLine(name: string, ps: seq<Parameter>, system: string, template: string)
    requires template != "" && !Contains(Text(name, ps, system, ""), "TEMPLATE")
    ensures var s := Text(name, ps, system, template);
      var start := Find(s, "TEMPLATE");
      0 <= start && StartsWith(FirstLine(s[start..]), "TEMPLATE \"\"\"")
  {
    var p := Text(name, ps, system, "");
    var q := TemplateLine(template) + "\n";
    TextWithTemplate(name, ps, system, template);
    TemplateLineHead(template);
    assert '\n' !in "TEMPLATE";
    FindAtJoint(p, q, "TEMPLATE");
    assert (p + q)[|p|..] == q;
    FirstLineKeepsPrefix(q, "TEMPLATE \"\"\"");
  }

  /** The builder's template line starts with the keyword and the opening quotes. */
  lemma TemplateLineHead(template: string)
    ensures StartsWith(TemplateLine(template) + "\n", "TEMPLATE \"\"\"")
    ensures StartsWith(TemplateLine(template) + "\n", "TEMPLATE")
  {
    var head := "TEMPLATE \"\"\"";
    var rest := template + "\"\"\"" + "\n";
    ConcatAssoc(head, template, "\"\"\"");
    ConcatAssoc(head, template + "\"\"\"", "\n");
    assert head[..8] == "TEMPLATE";
    StartsWithPrefix(head, rest, "TEMPLATE");
  }

  /** Any line that starts like the builder's template line yields "". */
  lemma TemplateOfTemplateHead(line: string)
    requires StartsWith(line, "TEMPLATE \"\"\"")
    ensures '"' in line && |Split(line, '"')| >= 2 && Split(line, '"')[1] == ""
  {
    var rest := line[10..];
    assert line == "TEMPLATE " + ['"'] + rest;
    assert '"' !in "TEMPLATE ";
    SplitLine("TEMPLATE ", rest, '"');
    assert rest == [] + ['"'] + rest[1..];
    SplitLine([], rest[1..], '"');
    assert line[9] == '"';
  }

  /** On builder output the template scanner returns "" (provided `TEMPLATE`
      does not already occur before the template line): the line it reads is
      `TEMPLATE """…`, whose first two double quotes are adjacent. */
  lemma TemplateOfBuilderOutput(name: string, ps: seq<Parameter>, system: string, template: string)
    requires !Contains(Text(name, ps, system, ""), "TEMPLATE")
    ensures ExtractTemplate(Text(name, ps, system, template)) == ""
  {
    if template != "" {
      FindTemplateLine(name, ps, system, template);
      var s := Text(name, ps, system, template);
      TemplateOfTemplateHead(FirstLine(s[Find(s, "TEMPLATE")..]));
    }
  }

  /** Stripping the text after `SYSTEM` on the builder's line leaves the quoted prompt. */
  lemma StripSystemLine(system: string)
    requires system != ""
    ensures Strip(SystemLine(system)[6..], IsSpace) == "\"\"\"" + system + "\"\"\""
  {
    var quoted := "\"\"\"" + system + "\"\"\"";
    assert SystemLine(system)[6..] == [' '] + quoted;
    assert quoted[0] == '"' && quoted[|quoted| - 1] == '"';
    StripLeadingStripped(' ', quoted, IsSpace);
  }

  lemma TextWithSystem(name: string, ps: seq<Parameter>, system: string, template: string)
    requires system != ""
    ensures Text(name, ps, system, template)
      == Text(name, ps, "", "") + (SystemLine(system) + ['\n'] + TemplatePart(template))
  {
  }

  lemma FirstLineOfSystemLine(system: string, rest: string)
    requires '\n' !in system
    ensures FirstLine(SystemLine(system) + ['\n'] + rest) == SystemLine(system)
  {
    PartLineOneLine(system, "");
    SplitLine(SystemLine(system), rest, '\n');
  }

  /** The system scanner finds a `SYSTEM` line that follows text free of `SYSTEM`. */
  lemma FindSystemAt(p: string, system: string, rest: string)
    requires !Contains(p, "SYSTEM") && p != [] && p[|p| - 1] == '\n' && '\n' !in system
    ensures var s, q := p + (SystemLine(system) + ['\n'] + rest), SystemLine(system) + ['\n'] + rest;
      Find(s, "SYSTEM") == |p| && s[|p|..] == q && FirstLine(q) == SystemLine(system)
  {
    var q := SystemLine(system) + ['\n'] + rest;
    assert q[..6] == "SYSTEM";
    FindAtJoint(p, q, "SYSTEM");
    assert (p + q)[|p|..] == q;
    FirstLineOfSystemLine(system, rest);
  }

  /** The system scanner finds the builder's `SYSTEM` line when nothing before it mentions `SYSTEM`. */
  lemma FindSystemLine(name: string, ps: seq<Parameter>, system: string, template: string)
    requires system != "" && '\n' !in system
    requires !Contains(Text(name, ps, "", ""), "SYSTEM")
    ensures var s := Text(name, ps, system, template);
      var start := Find(s, "SYSTEM");
      0 <= start && FirstLine(s[start..]) == SystemLine(system)
  {
    TextWithSystem(name, ps, system, template);
    FindSystemAt(Text(name, ps, "", ""), system, TemplatePart(template));
  }

  /** On builder output a single-line system prompt comes back with its
      triple quotes (provided `SYSTEM` does not occur in the `FROM` and
      parameter lines). */
  lemma SystemOfBuilderOutput(name: string, ps: seq<Parameter>, system: string, template: string)
    requires system != "" && '\n' !in system
    requires !Contains(Text(name, ps, "", ""), "SYSTEM")
    ensures ExtractSystem(Text(name, ps, system, template)) == "\"\"\"" + system + "\"\"\""
  {
    FindSystemLine(name, ps, system, template);
    StripSystemLine(system);
  }

  /** The builder's inputs that the three scanners read back: single-line
      name, prompt and template, a non-empty prompt, plain parameters, and
      neither `SYSTEM` nor `TEMPLATE` occurring before their own lines. */
  predicate ScansBack(name: string, ps: seq<Parameter>, system: string, template: string) {
    && '\n' !in name && '\n' !in system && '\n' !in template && system != ""
    && (forall i :: 0 <= i < |ps| ==> PlainParameter(ps[i]))
    && !Contains(Text(name, ps, "", ""), "SYSTEM") && !Contains(Text(name, ps, system, ""), "TEMPLATE")
  }

  /** What the three scanners read back from builder output. */
  lemma BuilderOutputReadsBack(name: string, ps: seq<Parameter>, system: string, template: string)
    requires ScansBack(name, ps, system, template)
    ensures var s := Text(name, ps, system, template);
      && ParamsFromLines(Split(s, '\n')) == ToMap(ps)
      && ExtractTemplate(s) == ""
      && ExtractSystem(s) == "\"\"\"" + system + "\"\"\""
  {
    ParametersRoundTrip(name, ps, system, template);
    TemplateOfBuilderOutput(name, ps, system, template);
    SystemOfBuilderOutput(name, ps, system, template);
  }
}
