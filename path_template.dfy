/**
 * Path templating (`_resolvePath`): every `:name` token of a REST path
 * template is replaced by the path parameter of that name, and a token
 * with no such parameter is left as it is.
 *
 * The source does this with one global, case-insensitive regular
 * expression replace, `:([a-z0-9_-]+)\b`. A token therefore starts at a
 * `:` and takes the longest run of letters, digits, `_` and `-` that
 * ends at a word boundary; since `-` is not a word character, a run is
 * cut back to its last letter, digit or `_`. The scan runs left to right
 * over the template only, so text that was substituted in is never
 * scanned again.
 */
module PathTemplate {
  import opened JsValue

  /** `\w` of a JavaScript regular expression without the `u` flag. */
  predicate IsWordChar(c: char) {
    'a' <= c <= 'z' || 'A' <= c <= 'Z' || '0' <= c <= '9' || c == '_'
  }

  /** The character class `[a-z0-9_-]` under the `i` flag. */
  predicate IsNameChar(c: char) {
    IsWordChar(c) || c == '-'
  }

  predicate NameRun(s: string) {
    forall i :: 0 <= i < |s| ==> IsNameChar(s[i])
  }

  /** `\b` at position `j` of `s`, for `j` just after a character of `s`. */
  predicate WordBoundary(s: string, j: int)
    requires 0 < j <= |s|
  {
    IsWordChar(s[j - 1]) != (j < |s| && IsWordChar(s[j]))
  }

  lemma NameRunCons(c: char, t: string)
    requires IsNameChar(c) && NameRun(t)
    ensures NameRun([c] + t)
  {
    forall i | 0 <= i < |[c] + t| ensures IsNameChar(([c] + t)[i]) {
      if i > 0 { assert ([c] + t)[i] == t[i - 1]; }
    }
  }

  lemma NameRunTail(c: char, t: string)
    requires NameRun([c] + t)
    ensures NameRun(t)
  {
    forall i | 0 <= i < |t| ensures IsNameChar(t[i]) {
      assert t[i] == ([c] + t)[i + 1];
    }
  }

  /** How runs and boundaries of `s` relate to those of `s[1..]`. */
  lemma NameRunShift(s: string)
    requires |s| > 0
    ensures forall j :: 1 < j <= |s| ==> (WordBoundary(s, j) <==> WordBoundary(s[1..], j - 1))
    ensures forall j :: 1 < j <= |s| && NameRun(s[..j]) ==> NameRun(s[1..][..j - 1])
  {
    forall j | 1 < j <= |s| && NameRun(s[..j])
      ensures NameRun(s[1..][..j - 1])
    {
      assert s[..j] == [s[0]] + s[1..][..j - 1];
      NameRunTail(s[0], s[1..][..j - 1]);
    }
  }

  /** A name the regular expression can capture. */
  predicate ValidName(name: string) {
    |name| > 0 && NameRun(name) && IsWordChar(name[|name| - 1])
  }

  /**
   * Length of the name captured right after a `:` whose following text
   * is `s`, or 0 when the regular expression does not match there.
   * NameLengthIsLongestMatch states what it is.
   */
  function NameLength(s: string): (n: nat)
    ensures n <= |s|
    decreases |s|
  {
    if s == [] || !IsNameChar(s[0]) then 0
    else
      var k := NameLength(s[1..]);
      if k > 0 then k + 1
      else if IsWordChar(s[0]) then 1
      else 0
  }

  /**
   * The name is the longest non-empty run of name characters that ends
   * at a word boundary, as greedy matching with backtracking finds it;
   * it ends with a word character, and a text that starts with a word
   * character always has one.
   */
  lemma {:induction false} NameLengthIsLongestMatch(s: string)
    ensures var n := NameLength(s);
      && (n > 0 ==> NameRun(s[..n]) && WordBoundary(s, n) && IsWordChar(s[n - 1]))
      && (forall j :: n < j <= |s| && NameRun(s[..j]) ==> !WordBoundary(s, j))
      && (|s| > 0 && IsWordChar(s[0]) ==> n > 0)
    decreases |s|
  {
    if s == [] || !IsNameChar(s[0]) {
      assert forall j :: 0 < j <= |s| ==> s[..j][0] == s[0];
    } else {
      var k := NameLength(s[1..]);
      NameLengthIsLongestMatch(s[1..]);
      NameRunShift(s);
      assert k == 0 && |s| > 1 ==> !IsWordChar(s[1]);
      if k > 0 {
        NameRunCons(s[0], s[1..][..k]);
        assert s[..k + 1] == [s[0]] + s[1..][..k];
      }
    }
  }

  /** Every name NameLength captures can be captured by the regular expression. */
  lemma NameLengthValid(s: string)
    requires NameLength(s) > 0
    ensures ValidName(s[..NameLength(s)])
  {
    NameLengthIsLongestMatch(s);
  }

  /** One piece of a template: a character copied as it is, or a `:name` token. */
  datatype Segment = Text(c: char) | Token(name: string)

  /** The template read as the replace scans it, left to right. */
  function Tokenize(template: string): seq<Segment>
    decreases |template|
  {
    if template == [] then []
    else if template[0] == ':' && NameLength(template[1..]) > 0 then
      var n := NameLength(template[1..]);
      [Token(template[1..n + 1])] + Tokenize(template[n + 1..])
    else
      [Text(template[0])] + Tokenize(template[1..])
  }

  /** The text the segments were read from. */
  function Render(segs: seq<Segment>): string {
    if segs == [] then []
    else
      (match segs[0]
       case Text(c) => [c]
       case Token(name) => ":" + name)
      + Render(segs[1..])
  }

  /**
   * What the replace callback makes of a token: the parameter converted
   * to a string when `params` has it as an own property (so a present but
   * `undefined` parameter gives `"undefined"`), else the whole match.
   */
  function TokenValue(name: string, params: map<string, Value>): string {
    if name in params then ToJsString(params[name]) else ":" + name
  }

  /** The replace callback applied to every segment on its own. */
  function Substitute(segs: seq<Segment>, params: map<string, Value>): string {
    if segs == [] then []
    else
      (match segs[0]
       case Text(c) => [c]
       case Token(name) => TokenValue(name, params))
      + Substitute(segs[1..], params)
  }

  /** `_resolvePath(template, params)`. */
  function Resolve(template: string, params: map<string, Value>): string {
    Substitute(Tokenize(template), params)
  }

  /** Every token the scan finds carries a name the regular expression captures. */
  lemma {:induction false} TokenizeNamesValid(template: string)
    ensures var segs := Tokenize(template);
      forall i :: 0 <= i < |segs| && segs[i].Token? ==> ValidName(segs[i].name)
    decreases |template|
  {
    if template != [] {
      var segs := Tokenize(template);
      if template[0] == ':' && NameLength(template[1..]) > 0 {
        var n := NameLength(template[1..]);
        NameLengthValid(template[1..]);
        assert template[1..][..n] == template[1..n + 1];
        TokenizeNamesValid(template[n + 1..]);
        assert segs == [Token(template[1..n + 1])] + Tokenize(template[n + 1..]);
      } else {
        TokenizeNamesValid(template[1..]);
        assert segs == [Text(template[0])] + Tokenize(template[1..]);
      }
    }
  }

  predicate NoKnownToken(segs: seq<Segment>, params: map<string, Value>) {
    forall i :: 0 <= i < |segs| && segs[i].Token? ==> segs[i].name !in params
  }

  // ---------------------------------------------------------------------
  // Lemmas

  /** One step of the scan at a `:` that starts a token. */
  lemma TokenizeToken(template: string)
    requires |template| > 0 && template[0] == ':' && NameLength(template[1..]) > 0
    ensures var n := NameLength(template[1..]);
      Tokenize(template) == [Token(template[1..n + 1])] + Tokenize(template[n + 1..])
  {
  }

  /** One step of the scan at a character that does not start a token. */
  lemma TokenizeText(template: string)
    requires |template| > 0 && !(template[0] == ':' && NameLength(template[1..]) > 0)
    ensures Tokenize(template) == [Text(template[0])] + Tokenize(template[1..])
  {
  }

  /** Tokenizing loses nothing: the tokens and characters spell the template. */
  lemma {:induction false} RenderTokenize(template: string)
    ensures Render(Tokenize(template)) == template
    decreases |template|
  {
    if template != [] {
      if template[0] == ':' && NameLength(template[1..]) > 0 {
        var n := NameLength(template[1..]);
        var name, rest := template[1..n + 1], template[n + 1..];
        TokenizeToken(template);
        RenderTokenize(rest);
        RenderCons(Token(name), Tokenize(rest));
        assert template == ":" + name + rest;
      } else {
        TokenizeText(template);
        RenderTokenize(template[1..]);
        RenderCons(Text(template[0]), Tokenize(template[1..]));
        assert template == [template[0]] + template[1..];
      }
    }
  }

  lemma RenderCons(seg: Segment, segs: seq<Segment>)
    ensures Render([seg] + segs) == Render([seg]) + Render(segs)
  {
    assert ([seg] + segs)[0] == seg && ([seg] + segs)[1..] == segs;
    assert [seg][1..] == [];
  }

  lemma {:induction false} SubstituteUnknown(segs: seq<Segment>, params: map<string, Value>)
    requires NoKnownToken(segs, params)
    ensures Substitute(segs, params) == Render(segs)
  {
    if segs != [] {
      assert NoKnownToken(segs[1..], params) by {
        forall i | 0 <= i < |segs[1..]| && segs[1..][i].Token?
          ensures segs[1..][i].name !in params
        {
          assert segs[1..][i] == segs[i + 1];
        }
      }
      SubstituteUnknown(segs[1..], params);
    }
  }

  /** A token whose name is not a parameter stays verbatim: with none known, the template comes back unchanged. */
  lemma ResolveUnknownTokens(template: string, params: map<string, Value>)
    requires NoKnownToken(Tokenize(template), params)
    ensures Resolve(template, params) == template
  {
    SubstituteUnknown(Tokenize(template), params);
    RenderTokenize(template);
  }

  /** With no parameters at all, every token is left as it is. */
  lemma ResolveWithoutParams(template: string)
    ensures Resolve(template, map[]) == template
  {
    ResolveUnknownTokens(template, map[]);
  }

  /** A template without `:` holds no token. */
  lemma {:induction false} NoColonNoToken(template: string)
    requires ':' !in template
    ensures forall i :: 0 <= i < |Tokenize(template)| ==> Tokenize(template)[i].Text?
    decreases |template|
  {
    if template != [] {
      NoColonNoToken(template[1..]);
      assert Tokenize(template) == [Text(template[0])] + Tokenize(template[1..]);
    }
  }

  /** A template without `:` is returned unchanged, whatever the parameters. */
  lemma ResolveWithoutColon(template: string, params: map<string, Value>)
    requires ':' !in template
    ensures Resolve(template, params) == template
  {
    NoColonNoToken(template);
    ResolveUnknownTokens(template, params);
  }

  /** Text without `:` in front of the rest is copied, and the rest is resolved on its own. */
  lemma {:induction false} ResolveText(text: string, rest: string, params: map<string, Value>)
    requires ':' !in text
    ensures Resolve(text + rest, params) == text + Resolve(rest, params)
    decreases |text|
  {
    if text != [] {
      var t := text + rest;
      assert t[0] == text[0] && t[1..] == text[1..] + rest;
      var segs := Tokenize(t);
      assert segs == [Text(text[0])] + Tokenize(text[1..] + rest);
      assert segs[1..] == Tokenize(text[1..] + rest);
      ResolveText(text[1..], rest, params);
      assert text == [text[0]] + text[1..];
    } else {
      assert text + rest == rest;
    }
  }

  /** The name captured after `:` is the whole of a valid name that no name character follows. */
  lemma NameLengthOfToken(name: string, rest: string)
    requires ValidName(name)
    requires rest == [] || !IsNameChar(rest[0])
    ensures NameLength(name + rest) == |name|
  {
    NameLengthAtLeast(name, rest);
    if rest != [] {
      assert (name + rest)[|name|] == rest[0];
      NameLengthAtMost(name + rest, |name|);
    }
  }

  /** A valid name is captured whole, whatever follows it. */
  lemma {:induction false} NameLengthAtLeast(name: string, rest: string)
    requires ValidName(name)
    ensures NameLength(name + rest) >= |name|
    decreases |name|
  {
    var s := name + rest;
    assert s[0] == name[0] && s[1..] == name[1..] + rest;
    if |name| > 1 {
      assert ValidName(name[1..]) by {
        assert name == [name[0]] + name[1..];
        NameRunTail(name[0], name[1..]);
      }
      NameLengthAtLeast(name[1..], rest);
    }
  }

  /** The capture stops at the first character that cannot be part of a name. */
  lemma {:induction false} NameLengthAtMost(s: string, m: nat)
    requires m < |s| && !IsNameChar(s[m])
    ensures NameLength(s) <= m
    decreases m
  {
    if m > 0 && IsNameChar(s[0]) {
      assert s[1..][m - 1] == s[m];
      NameLengthAtMost(s[1..], m - 1);
    }
  }

  /**
   * A token is replaced by its parameter when the parameter exists and is
   * kept verbatim otherwise; the rest of the template is resolved on its
   * own, so the substituted value is never scanned for tokens.
   */
  lemma ResolveToken(name: string, rest: string, params: map<string, Value>)
    requires ValidName(name)
    requires rest == [] || !IsNameChar(rest[0])
    ensures Resolve(":" + name + rest, params)
         == TokenValue(name, params) + Resolve(rest, params)
  {
    NameLengthOfToken(name, rest);
    ResolveCapturedToken(name, rest, params);
  }

  /** A `-` right after a name, not followed by a name character, stays outside the token. */
  lemma ResolveTokenBeforeHyphen(name: string, rest: string, params: map<string, Value>)
    requires ValidName(name)
    requires |rest| > 0 && rest[0] == '-' && (|rest| == 1 || !IsNameChar(rest[1]))
    ensures Resolve(":" + name + rest, params)
         == TokenValue(name, params) + Resolve(rest, params)
  {
    var s := name + rest;
    var n := NameLength(s);
    NameLengthIsLongestMatch(s);
    assert s[..|name|] == name;
    assert NameRun(s[..|name|]) && WordBoundary(s, |name|);
    assert s[|name|] == '-';
    ResolveCapturedToken(name, rest, params);
  }

  lemma ResolveCapturedToken(name: string, rest: string, params: map<string, Value>)
    requires NameLength(name + rest) == |name| > 0
    ensures Resolve(":" + name + rest, params)
         == TokenValue(name, params) + Resolve(rest, params)
  {
    var t := ":" + name + rest;
    assert t[1..] == name + rest;
    var n := |name|;
    assert t[1..n + 1] == name && t[n + 1..] == rest;
    var segs := Tokenize(t);
    assert segs == [Token(name)] + Tokenize(rest);
    assert segs[1..] == Tokenize(rest);
  }

  // ---------------------------------------------------------------------
  // Templates taken from the endpoint table

  /** A template of the shape `text1:name1text2:name2`, the shape of most endpoint paths. */
  lemma ResolveTwoTokens(text1: string, name1: string, text2: string, name2: string,
                         params: map<string, Value>)
    requires ':' !in text1 && ':' !in text2
    requires ValidName(name1) && ValidName(name2)
    requires text2 == [] || !IsNameChar(text2[0])
    ensures Resolve(text1 + ":" + name1 + text2 + ":" + name2, params)
         == text1 + TokenValue(name1, params) + text2 + TokenValue(name2, params)
  {
    var v1, v2 := TokenValue(name1, params), TokenValue(name2, params);
    var last := ":" + name2 + "";
    ResolveToken(name2, "", params);
    assert Resolve("", params) == "";
    assert Resolve(last, params) == v2;
    ResolveText(text2, last, params);
    var tail := text2 + last;
    ResolveToken(name1, tail, params);
    var t := ":" + name1 + tail;
    ResolveText(text1, t, params);
    RegroupTemplate(text1, name1, text2, name2);
    RegroupPieces(text1, v1, text2, v2);
  }

  lemma RegroupTemplate(text1: string, name1: string, text2: string, name2: string)
    ensures text1 + ":" + name1 + text2 + ":" + name2
         == text1 + (":" + name1 + (text2 + (":" + name2 + "")))
  {
  }

  lemma RegroupPieces(a: string, b: string, c: string, d: string)
    ensures a + (b + (c + d)) == a + b + c + d
  {
  }

  /**
   * `zones/:zone_identifier/dns_records/:identifier`, the template of the
   * `zoneDNSRecordGet` endpoint (whose callee string is `zoneGet`).
   */
  lemma ResolveZoneRecordPath(zone: string, record: string)
    ensures Resolve("zones/:zone_identifier/dns_records/:identifier",
                    map["zone_identifier" := Str(zone), "identifier" := Str(record)])
         == "zones/" + zone + "/dns_records/" + record
  {
    ZoneRecordTemplate(map["zone_identifier" := Str(zone), "identifier" := Str(record)]);
  }

  /** The same template with the record parameter absent keeps `:identifier`. */
  lemma ResolveZoneRecordPathMissingParam(zone: string)
    ensures Resolve("zones/:zone_identifier/dns_records/:identifier", map["zone_identifier" := Str(zone)])
         == "zones/" + zone + "/dns_records/" + ":identifier"
  {
    var params := map["zone_identifier" := Str(zone)];
    ZoneRecordTemplate(params);
    UnknownRecordToken(zone, params);
  }

  /**
   * An endpoint called without its arguments still has both keys, bound
   * to `undefined`: the path then reads `undefined` where they go.
   */
  lemma ResolveZoneRecordPathUndefinedParams()
    ensures Resolve("zones/:zone_identifier/dns_records/:identifier",
                    map["zone_identifier" := Undefined, "identifier" := Undefined])
         == "zones/undefined/dns_records/undefined"
  {
    var params := map["zone_identifier" := Undefined, "identifier" := Undefined];
    ZoneRecordTemplate(params);
    UndefinedTokenValues(params);
    UndefinedPathText();
  }

  lemma UndefinedPathText()
    ensures "zones/" + "undefined" + "/dns_records/" + "undefined" == "zones/undefined/dns_records/undefined"
  {
    assert "zones/" + "undefined" == "zones/undefined";
    assert "zones/undefined" + "/dns_records/" == "zones/undefined/dns_records/";
    assert "zones/undefined/dns_records/" + "undefined" == "zones/undefined/dns_records/undefined";
  }

  lemma UndefinedTokenValues(params: map<string, Value>)
    requires params == map["zone_identifier" := Undefined, "identifier" := Undefined]
    ensures TokenValue("zone_identifier", params) == "undefined" && TokenValue("identifier", params) == "undefined"
  {
  }

  lemma UnknownRecordToken(zone: string, params: map<string, Value>)
    requires params == map["zone_identifier" := Str(zone)]
    ensures "zones/" + TokenValue("zone_identifier", params) + "/dns_records/" + TokenValue("identifier", params)
         == "zones/" + zone + "/dns_records/" + ":identifier"
  {
    assert TokenValue("identifier", params) == ":identifier";
  }

  lemma ZoneRecordTemplate(params: map<string, Value>)
    ensures Resolve("zones/:zone_identifier/dns_records/:identifier", params)
         == "zones/" + TokenValue("zone_identifier", params) + "/dns_records/"
            + TokenValue("identifier", params)
  {
    ZoneRecordTemplateShape();
    ResolveTwoTokens("zones/", "zone_identifier", "/dns_records/", "identifier", params);
  }

  lemma ZoneRecordTemplateShape()
    ensures "zones/:zone_identifier/dns_records/:identifier"
         == "zones/" + ":" + "zone_identifier" + "/dns_records/" + ":" + "identifier"
    ensures ValidName("zone_identifier") && ValidName("identifier")
  {
    assert "zones/" + ":" == "zones/:";
    assert "zones/:" + "zone_identifier" == "zones/:zone_identifier";
    assert "zones/:zone_identifier" + "/dns_records/" == "zones/:zone_identifier/dns_records/";
    assert "zones/:zone_identifier/dns_records/" + ":" == "zones/:zone_identifier/dns_records/:";
    assert "zones/:zone_identifier/dns_records/:" + "identifier"
        == "zones/:zone_identifier/dns_records/:identifier";
  }

  /** A substituted value that looks like a token is not replaced again. */
  lemma SubstitutedValueNotRescanned()
    ensures Resolve(":a", map["a" := Str(":b"), "b" := Str("x")]) == ":b"
  {
    var params := map["a" := Str(":b"), "b" := Str("x")];
    assert ":a" == ":" + "a" + "";
    assert ValidName("a");
    ResolveToken("a", "", params);
    assert Resolve("", params) == "";
  }

  /** A number given as a parameter is written in decimal. */
  lemma NumericParameter()
    ensures Resolve(":page/x", map["page" := Num(7)]) == "7/x"
  {
    var params := map["page" := Num(7)];
    assert ":page/x" == ":" + "page" + "/x" && ValidName("page");
    ResolveToken("page", "/x", params);
    ResolveWithoutColon("/x", params);
    assert TokenValue("page", params) == "7";
  }

  /** A `-` inside a name belongs to it. */
  lemma HyphenInsideName()
    ensures Resolve(":zone-id/x", map["zone-id" := Str("v")]) == "v" + "/x"
  {
    var params := map["zone-id" := Str("v")];
    HyphenShapes();
    ResolveToken("zone-id", "/x", params);
    ResolveWithoutColon("/x", params);
  }

  /** A `-` after the last word character of a run is not part of the name. */
  lemma HyphenAfterName()
    ensures Resolve(":zone-/x", map["zone" := Str("v"), "zone-" := Str("w")]) == "v" + "-/x"
  {
    var params := map["zone" := Str("v"), "zone-" := Str("w")];
    HyphenShapes();
    ResolveTokenBeforeHyphen("zone", "-/x", params);
    ResolveWithoutColon("-/x", params);
  }

  lemma HyphenShapes()
    ensures ":zone-id/x" == ":" + "zone-id" + "/x" && ValidName("zone-id")
    ensures ":zone-/x" == ":" + "zone" + "-/x" && ValidName("zone")
  {
  }

  /** A `:` that no name follows (`::a`, `:/`) is copied, and the scan resumes right after it. */
  lemma ResolveBareColon(rest: string, params: map<string, Value>)
    requires NameLength(rest) == 0
    ensures Resolve(":" + rest, params) == ":" + Resolve(rest, params)
  {
    TokenizeText(":" + rest);
    assert (":" + rest)[1..] == rest;
  }
}
