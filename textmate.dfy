/** Code extraction from grammar-engine token lists (formats/code/textmate.ts).
    The grammar engine itself is outside the model: a tokenization result is
    given as its list of `(startIndex, endIndex, scopes)` tokens. */
module Textmate {
  import opened JsStrings

  datatype IToken = IToken(startIndex: nat, endIndex: nat, scopes: seq<string>)

  /** The part of a `tokenizeLine` result that extraction reads. */
  datatype TokenizeLineResult = TokenizeLineResult(tokens: seq<IToken>)

  /** A token scope belongs to a target scope when it is that scope or
      starts with it followed by a space. */
  predicate ScopeMatches(scope: string, target: string) {
    scope == target || StartsWith(scope, target + " ")
  }

  predicate IsTargetScope(token: IToken, targets: seq<string>) {
    exists i, j | 0 <= i < |token.scopes| && 0 <= j < |targets| :: ScopeMatches(token.scopes[i], targets[j])
  }

  /** The accumulators of `extractCode`'s loop. */
  datatype CodeState = CodeState(code: string, lastEndIndex: nat)

  /** The accumulators after `extractCode` has visited `tokens`, in order. */
  function CodeFold(tokens: seq<IToken>, text: string, targets: seq<string>): CodeState
    decreases |tokens|
  {
    if tokens == [] then CodeState("", 0)
    else
      var s := CodeFold(tokens[..|tokens| - 1], text, targets);
      var t := tokens[|tokens| - 1];
      if IsTargetScope(t, targets) then CodeState(s.code + Slice(text, s.lastEndIndex, t.endIndex), t.endIndex)
      else s
  }

  /** What `extractCode(result, text, scopes)` returns. */
  function ExtractedCode(result: TokenizeLineResult, text: string, targets: seq<string>): string {
    Trim(CodeFold(result.tokens, text, targets).code)
  }

  /** `extractCode`: the forEach loop over the tokens. */
  method ExtractCode(result: TokenizeLineResult, text: string, targets: seq<string>) returns (code: string)
    ensures code == ExtractedCode(result, text, targets)
  {
    var acc := "";
    var lastEndIndex := 0;
    var i := 0;
    while i < |result.tokens|
      invariant 0 <= i <= |result.tokens|
      invariant CodeState(acc, lastEndIndex) == CodeFold(result.tokens[..i], text, targets)
    {
      var token := result.tokens[i];
      assert result.tokens[..i + 1][..i] == result.tokens[..i];
      if IsTargetScope(token, targets) {
        acc := acc + Slice(text, lastEndIndex, token.endIndex);
        lastEndIndex := token.endIndex;
      }
      i := i + 1;
    }
    assert result.tokens[..i] == result.tokens;
    code := Trim(acc);
  }

  /** The end index of the last target token, 0 when there is none. */
  function LastTargetEnd(tokens: seq<IToken>, targets: seq<string>): nat
    decreases |tokens|
  {
    if tokens == [] then 0
    else if IsTargetScope(tokens[|tokens| - 1], targets) then tokens[|tokens| - 1].endIndex
    else LastTargetEnd(tokens[..|tokens| - 1], targets)
  }

  predicate EndsNonDecreasing(tokens: seq<IToken>) {
    forall i, j :: 0 <= i < j < |tokens| ==> tokens[i].endIndex <= tokens[j].endIndex
  }

  lemma {:induction false} LastTargetEndBound(tokens: seq<IToken>, targets: seq<string>)
    requires EndsNonDecreasing(tokens) && tokens != []
    ensures LastTargetEnd(tokens, targets) <= tokens[|tokens| - 1].endIndex
  {
    var prefix := tokens[..|tokens| - 1];
    if !IsTargetScope(tokens[|tokens| - 1], targets) && prefix != [] {
      LastTargetEndBound(prefix, targets);
    }
  }

  /** For tokens whose end indices never decrease, the untrimmed code is the
      text from its start up to the end of the last target token: every target
      token extends it by the text between the previous target's end and its
      own. */
  lemma {:induction false} CodeFoldIsPrefix(tokens: seq<IToken>, text: string, targets: seq<string>)
    requires EndsNonDecreasing(tokens)
    ensures CodeFold(tokens, text, targets).lastEndIndex == LastTargetEnd(tokens, targets)
    ensures CodeFold(tokens, text, targets).code == text[..ClampIndex(LastTargetEnd(tokens, targets), |text|)]
  {
    if tokens != [] {
      var prefix := tokens[..|tokens| - 1];
      var t := tokens[|tokens| - 1];
      CodeFoldIsPrefix(prefix, text, targets);
      if IsTargetScope(t, targets) {
        var last := LastTargetEnd(prefix, targets);
        if prefix != [] {
          LastTargetEndBound(prefix, targets);
        }
        var a := ClampIndex(last, |text|);
        var b := ClampIndex(t.endIndex, |text|);
        assert a <= b;
        assert text[..a] + Slice(text, last, t.endIndex) == text[..b];
      }
    }
  }

  /** Without a target token nothing is extracted. */
  lemma {:induction false} NoTargetNoCode(tokens: seq<IToken>, text: string, targets: seq<string>)
    requires forall i :: 0 <= i < |tokens| ==> !IsTargetScope(tokens[i], targets)
    ensures CodeFold(tokens, text, targets) == CodeState("", 0)
    ensures ExtractedCode(TokenizeLineResult(tokens), text, targets) == ""
  {
    if tokens != [] {
      NoTargetNoCode(tokens[..|tokens| - 1], text, targets);
    }
  }

  // ---- Vue ----

  predicate IsVueScope(token: IToken) {
    exists i | 0 <= i < |token.scopes| ::
      token.scopes[i] == "source.vue" || StartsWith(token.scopes[i], "source.vue ")
      || StartsWith(token.scopes[i], "text.html.vue")
  }

  /** The accumulators of `extractVueCode`'s loop. */
  datatype VueState = VueState(code: string, isVueBlock: bool, lastEndIndex: nat)

  /** One iteration of `extractVueCode`'s loop. */
  function VueStep(s: VueState, t: IToken, text: string): VueState {
    var isVue := IsVueScope(t);
    var s1 :=
      if isVue && !s.isVueBlock then VueState(s.code, true, t.startIndex)
      else if !isVue && s.isVueBlock then VueState(s.code + Slice(text, s.lastEndIndex, t.startIndex), false, s.lastEndIndex)
      else s;
    if s1.isVueBlock then VueState(s1.code + Slice(text, s1.lastEndIndex, t.endIndex), true, t.endIndex)
    else s1
  }

  function VueFold(tokens: seq<IToken>, text: string): VueState
    decreases |tokens|
  {
    if tokens == [] then VueState("", false, 0)
    else VueStep(VueFold(tokens[..|tokens| - 1], text), tokens[|tokens| - 1], text)
  }

  /** What `extractVueCode(result, text)` returns. */
  function VueExtracted(result: TokenizeLineResult, text: string): string {
    Trim(VueFold(result.tokens, text).code)
  }

  /** `extractVueCode`: the forEach loop with its `isVueBlock` flag. */
  method ExtractVueCode(result: TokenizeLineResult, text: string) returns (code: string)
    ensures code == VueExtracted(result, text)
  {
    var vueCode := "";
    var isVueBlock := false;
    var lastEndIndex := 0;
    var i := 0;
    while i < |result.tokens|
      invariant 0 <= i <= |result.tokens|
      invariant VueState(vueCode, isVueBlock, lastEndIndex) == VueFold(result.tokens[..i], text)
    {
      var token := result.tokens[i];
      assert result.tokens[..i + 1][..i] == result.tokens[..i];
      var isVueScope := IsVueScope(token);
      if isVueScope && !isVueBlock {
        isVueBlock := true;
        lastEndIndex := token.startIndex;
      } else if !isVueScope && isVueBlock {
        vueCode := vueCode + Slice(text, lastEndIndex, token.startIndex);
        isVueBlock := false;
      }
      if isVueBlock {
        vueCode := vueCode + Slice(text, lastEndIndex, token.endIndex);
        lastEndIndex := token.endIndex;
      }
      i := i + 1;
    }
    assert result.tokens[..i] == result.tokens;
    code := Trim(vueCode);
  }

  /** Tokens that tile the text: each lies inside it and starts where the
      previous one ended. */
  predicate Contiguous(tokens: seq<IToken>, text: string) {
    (forall i :: 0 <= i < |tokens| ==> tokens[i].startIndex <= tokens[i].endIndex <= |text|)
    && (forall i :: 0 <= i < |tokens| - 1 ==> tokens[i].endIndex == tokens[i + 1].startIndex)
  }

  /** The text of each Vue-scoped token, `""` for the others. */
  function VuePieces(tokens: seq<IToken>, text: string): string
    requires forall i :: 0 <= i < |tokens| ==> tokens[i].startIndex <= tokens[i].endIndex <= |text|
    decreases |tokens|
  {
    if tokens == [] then ""
    else
      var t := tokens[|tokens| - 1];
      VuePieces(tokens[..|tokens| - 1], text) + (if IsVueScope(t) then text[t.startIndex..t.endIndex] else "")
  }

  /** On tokens that tile the text, the untrimmed Vue code is exactly the text
      of the Vue-scoped tokens, in order: entering a block starts at the token's
      start, and leaving it adds the (empty) gap up to the next token. */
  lemma {:induction false} VueFoldIsVueText(tokens: seq<IToken>, text: string)
    requires Contiguous(tokens, text)
    ensures VueFold(tokens, text).code == VuePieces(tokens, text)
    ensures VueFold(tokens, text).isVueBlock == (tokens != [] && IsVueScope(tokens[|tokens| - 1]))
    ensures VueFold(tokens, text).isVueBlock ==> VueFold(tokens, text).lastEndIndex == tokens[|tokens| - 1].endIndex
  {
    if tokens != [] {
      var prefix := tokens[..|tokens| - 1];
      assert Contiguous(prefix, text);
      VueFoldIsVueText(prefix, text);
    }
  }

  /** Without a Vue-scoped token nothing is extracted. */
  lemma {:induction false} NoVueNoCode(tokens: seq<IToken>, text: string)
    requires forall i :: 0 <= i < |tokens| ==> !IsVueScope(tokens[i])
    ensures VueFold(tokens, text).code == "" && !VueFold(tokens, text).isVueBlock
  {
    if tokens != [] {
      NoVueNoCode(tokens[..|tokens| - 1], text);
    }
  }

  // ---- per-language wrappers ----

  const TsxScopes: seq<string> := ["source.tsx", "source.tsx ", "source.js", "source.js "]
  const GolangScopes: seq<string> := ["source.go", "source.go "]
  const JavaScriptScopes: seq<string> := ["source.js", "source.js "]
  const TypeScriptScopes: seq<string> := ["source.ts", "source.ts "]
  const RustScopes: seq<string> := ["source.rust", "source.rust "]

  function ExtractTsxCode(result: TokenizeLineResult, text: string): string {
    ExtractedCode(result, text, TsxScopes)
  }

  function ExtractGolangCode(result: TokenizeLineResult, text: string): string {
    ExtractedCode(result, text, GolangScopes)
  }

  function ExtractJavaScriptCode(result: TokenizeLineResult, text: string): string {
    ExtractedCode(result, text, JavaScriptScopes)
  }

  function ExtractTypeScriptCode(result: TokenizeLineResult, text: string): string {
    ExtractedCode(result, text, TypeScriptScopes)
  }

  function ExtractRustCode(result: TokenizeLineResult, text: string): string {
    ExtractedCode(result, text, RustScopes)
  }

  /** A scope belongs to language `base` when it is `base` or starts with `base `. */
  predicate InLanguage(token: IToken, base: string) {
    exists i | 0 <= i < |token.scopes| :: token.scopes[i] == base || StartsWith(token.scopes[i], base + " ")
  }

  lemma {:induction false} PaddedTargetImpliesPrefix(scope: string, base: string)
    requires ScopeMatches(scope, base + " ")
    ensures StartsWith(scope, base + " ")
  {
    if scope != base + " " {
      assert scope[..|base| + 1] == (scope[..|base| + 2])[..|base| + 1];
    }
  }

  /** Listing `base ` beside `base` adds nothing: the pair selects exactly the
      scopes of that language. */
  lemma {:induction false} PairedScopes(token: IToken, base: string)
    ensures IsTargetScope(token, [base, base + " "]) <==> InLanguage(token, base)
  {
    var targets := [base, base + " "];
    if IsTargetScope(token, targets) {
      var i, j :| 0 <= i < |token.scopes| && 0 <= j < |targets| && ScopeMatches(token.scopes[i], targets[j]);
      if j == 1 {
        PaddedTargetImpliesPrefix(token.scopes[i], base);
      }
    }
    if InLanguage(token, base) {
      var i :| 0 <= i < |token.scopes| && (token.scopes[i] == base || StartsWith(token.scopes[i], base + " "));
      assert ScopeMatches(token.scopes[i], targets[0]);
    }
  }

  /** Targets listed one after the other select what either list selects. */
  lemma {:induction false} ConcatTargets(token: IToken, a: seq<string>, b: seq<string>)
    ensures IsTargetScope(token, a + b) <==> IsTargetScope(token, a) || IsTargetScope(token, b)
  {
    var ab := a + b;
    if IsTargetScope(token, ab) {
      var i, j :| 0 <= i < |token.scopes| && 0 <= j < |ab| && ScopeMatches(token.scopes[i], ab[j]);
      if j < |a| {
        assert ScopeMatches(token.scopes[i], a[j]);
      } else {
        assert ScopeMatches(token.scopes[i], b[j - |a|]);
      }
    }
    if IsTargetScope(token, a) {
      var i, j :| 0 <= i < |token.scopes| && 0 <= j < |a| && ScopeMatches(token.scopes[i], a[j]);
      assert ScopeMatches(token.scopes[i], ab[j]);
    }
    if IsTargetScope(token, b) {
      var i, j :| 0 <= i < |token.scopes| && 0 <= j < |b| && ScopeMatches(token.scopes[i], b[j]);
      assert ScopeMatches(token.scopes[i], ab[j + |a|]);
    }
  }

  /** The TSX extractor selects TSX and JavaScript tokens. */
  lemma {:induction false} TsxScopesSelect(token: IToken)
    ensures IsTargetScope(token, TsxScopes) <==> InLanguage(token, "source.tsx") || InLanguage(token, "source.js")
  {
    PairedScopes(token, "source.tsx");
    PairedScopes(token, "source.js");
    assert "source.tsx" + " " == "source.tsx ";
    assert "source.js" + " " == "source.js ";
    assert TsxScopes == ["source.tsx", "source.tsx "] + ["source.js", "source.js "];
    ConcatTargets(token, ["source.tsx", "source.tsx "], ["source.js", "source.js "]);
  }

  /** The Go, JavaScript, TypeScript and Rust extractors each select exactly
      the tokens of their own language. */
  lemma {:induction false} SingleLanguageScopesSelect(token: IToken)
    ensures IsTargetScope(token, GolangScopes) <==> InLanguage(token, "source.go")
    ensures IsTargetScope(token, JavaScriptScopes) <==> InLanguage(token, "source.js")
    ensures IsTargetScope(token, TypeScriptScopes) <==> InLanguage(token, "source.ts")
    ensures IsTargetScope(token, RustScopes) <==> InLanguage(token, "source.rust")
  {
    assert "source.go" + " " == "source.go ";
    assert "source.js" + " " == "source.js ";
    assert "source.ts" + " " == "source.ts ";
    assert "source.rust" + " " == "source.rust ";
    PairedScopes(token, "source.go");
    PairedScopes(token, "source.js");
    PairedScopes(token, "source.ts");
    PairedScopes(token, "source.rust");
  }
}
