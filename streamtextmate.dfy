/** Streaming code extractors over a growing buffer
    (formats/code/streamTextmate.ts). */
module StreamTextmate {
  import opened JsStrings
  import opened Textmate

  /** A streaming extractor for one language. Every chunk is appended to the
      buffer, the whole buffer is tokenized again and its extracted code is
      handed to the callback; here the callback's arguments are recorded in
      `updates`. The grammar engine is the parameter `grammar`, mapping a
      language id and a text to the tokens of that text. */
  class StreamableParser {
    const lang: string
    const grammar: (string, string) -> TokenizeLineResult
    const extractCode: (TokenizeLineResult, string) -> string
    var buffer: string
    var updates: seq<string>
    /** The chunks fed so far. */
    ghost var chunks: seq<string>

    /** The code the extractor finds in `text`. */
    function CodeOf(text: string): string
      reads this
    {
      extractCode(grammar(lang, text), text)
    }

    /** The buffer is the chunks run together, and the i-th update is the code
        of the buffer as it stood after the i-th chunk. */
    ghost predicate Valid()
      reads this
    {
      buffer == Concat(chunks)
      && |updates| == |chunks|
      && forall i :: 0 <= i < |updates| ==> updates[i] == CodeOf(Concat(chunks[..i + 1]))
    }

    /** `createStreamableParser(lang, extractCode, callback)`. */
    constructor (lang: string, grammar: (string, string) -> TokenizeLineResult,
                 extractCode: (TokenizeLineResult, string) -> string)
      ensures Valid()
      ensures this.lang == lang && this.grammar == grammar && this.extractCode == extractCode
      ensures buffer == "" && updates == [] && chunks == []
    {
      this.lang := lang;
      this.grammar := grammar;
      this.extractCode := extractCode;
      buffer := "";
      updates := [];
      chunks := [];
    }

    /** `feed(chunk)`. */
    method Feed(chunk: string)
      requires Valid()
      modifies this
      ensures Valid()
      ensures buffer == old(buffer) + chunk && chunks == old(chunks) + [chunk]
      ensures updates == old(updates) + [CodeOf(buffer)]
    {
      ConcatSnoc(chunks, chunk);
      buffer := buffer + chunk;
      var result := grammar(lang, buffer);
      var code := extractCode(result, buffer);
      updates := updates + [code];
      chunks := chunks + [chunk];
      assert chunks[..|chunks|] == chunks;
      forall i | 0 <= i < |updates| - 1
        ensures updates[i] == CodeOf(Concat(chunks[..i + 1]))
      {
        assert chunks[..i + 1] == old(chunks)[..i + 1];
      }
    }

    /** `end()`: the code of the whole buffer, without a callback. */
    method End() returns (code: string)
      requires Valid()
      ensures code == CodeOf(buffer)
      ensures Valid()
    {
      var result := grammar(lang, buffer);
      code := extractCode(result, buffer);
    }
  }

  /** `createStreamableVueParser`. */
  method CreateVueParser(grammar: (string, string) -> TokenizeLineResult) returns (p: StreamableParser)
    ensures fresh(p) && p.Valid() && p.buffer == "" && p.updates == []
    ensures p.lang == "vue"
    ensures forall r, t :: p.extractCode(r, t) == VueExtracted(r, t)
  {
    p := new StreamableParser("vue", grammar, (r, t) => VueExtracted(r, t));
  }

  /** `createStreamableTsxParser`. */
  method CreateTsxParser(grammar: (string, string) -> TokenizeLineResult) returns (p: StreamableParser)
    ensures fresh(p) && p.Valid() && p.buffer == "" && p.updates == []
    ensures p.lang == "tsx"
    ensures forall r, t :: p.extractCode(r, t) == ExtractTsxCode(r, t)
  {
    p := new StreamableParser("tsx", grammar, (r, t) => ExtractTsxCode(r, t));
  }

  /** `createStreamableGolangParser`. */
  method CreateGolangParser(grammar: (string, string) -> TokenizeLineResult) returns (p: StreamableParser)
    ensures fresh(p) && p.Valid() && p.buffer == "" && p.updates == []
    ensures p.lang == "go"
    ensures forall r, t :: p.extractCode(r, t) == ExtractGolangCode(r, t)
  {
    p := new StreamableParser("go", grammar, (r, t) => ExtractGolangCode(r, t));
  }

  /** `createStreamableJavaScriptParser`. */
  method CreateJavaScriptParser(grammar: (string, string) -> TokenizeLineResult) returns (p: StreamableParser)
    ensures fresh(p) && p.Valid() && p.buffer == "" && p.updates == []
    ensures p.lang == "js"
    ensures forall r, t :: p.extractCode(r, t) == ExtractJavaScriptCode(r, t)
  {
    p := new StreamableParser("js", grammar, (r, t) => ExtractJavaScriptCode(r, t));
  }

  /** `createStreamableTypeScriptParser`. */
  method CreateTypeScriptParser(grammar: (string, string) -> TokenizeLineResult) returns (p: StreamableParser)
    ensures fresh(p) && p.Valid() && p.buffer == "" && p.updates == []
    ensures p.lang == "ts"
    ensures forall r, t :: p.extractCode(r, t) == ExtractTypeScriptCode(r, t)
  {
    p := new StreamableParser("ts", grammar, (r, t) => ExtractTypeScriptCode(r, t));
  }

  /** `createStreamableRustParser`. */
  method CreateRustParser(grammar: (string, string) -> TokenizeLineResult) returns (p: StreamableParser)
    ensures fresh(p) && p.Valid() && p.buffer == "" && p.updates == []
    ensures p.lang == "rust"
    ensures forall r, t :: p.extractCode(r, t) == ExtractRustCode(r, t)
  {
    p := new StreamableParser("rust", grammar, (r, t) => ExtractRustCode(r, t));
  }
}
