/**
 * The `chat` handler of the AI controller (backend/controllers/aiController.js):
 * the fixed reply when no API key is configured, the loop that flattens the
 * chat messages into a prompt and a resume context, and the clean-up of the
 * text the model sends back.
 */
module AiChat {
  import opened Wrappers
  import opened Text
  import opened Seqs

  // ---------------------------------------------------------------------------
  // Messages

  /** One element of an array-valued `content`: `{type: 'text'}`, `{type: 'file'}` or anything else. */
  datatype Part = TextPart(text: string) | FilePart(path: string) | OtherPart(kind: string)

  /** `msg.content`: an array of parts, or a plain string. */
  datatype Content = Parts(parts: seq<Part>) | Plain(text: string)

  datatype Message = Message(content: Content)

  /**
   * The resume text of an uploaded file, or `None` when no file exists at that
   * path; it stands for `fs.existsSync`, `fs.readFileSync` and `pdf-parse`.
   */
  type FileTexts = string -> Option<string>

  /** The block one existing file adds to the context. */
  function ContextBlock(text: string): string
  {
    "\n[RESUME CONTEXT START]\n" + text + "\n[RESUME CONTEXT END]\n"
  }

  function PartPrompt(p: Part): string
  {
    if p.TextPart? then p.text + "\n" else []
  }

  function PartContext(p: Part, files: FileTexts): string
  {
    if p.FilePart? && files(p.path).Some? then ContextBlock(files(p.path).value) else []
  }

  /** What a list of parts adds to the prompt, part by part. */
  function PartsPrompt(ps: seq<Part>): string
  {
    if ps == [] then [] else PartsPrompt(ps[..|ps| - 1]) + PartPrompt(ps[|ps| - 1])
  }

  /** What a list of parts adds to the context, part by part. */
  function PartsContext(ps: seq<Part>, files: FileTexts): string
  {
    if ps == [] then [] else PartsContext(ps[..|ps| - 1], files) + PartContext(ps[|ps| - 1], files)
  }

  function MessagePrompt(m: Message): string
  {
    match m.content
    case Parts(ps) => PartsPrompt(ps)
    case Plain(t) => t + "\n"
  }

  function MessageContext(m: Message, files: FileTexts): string
  {
    match m.content
    case Parts(ps) => PartsContext(ps, files)
    case Plain(_) => []
  }

  /** The prompt the messages flatten to, message by message. */
  function PromptOf(msgs: seq<Message>): string
  {
    if msgs == [] then [] else PromptOf(msgs[..|msgs| - 1]) + MessagePrompt(msgs[|msgs| - 1])
  }

  /** The resume context the messages flatten to, message by message. */
  function ContextOf(msgs: seq<Message>, files: FileTexts): string
  {
    if msgs == [] then [] else ContextOf(msgs[..|msgs| - 1], files) + MessageContext(msgs[|msgs| - 1], files)
  }

  /** `messages && Array.isArray(messages)` fails (`None`): both stay empty. */
  function FlatPrompt(messages: Option<seq<Message>>): string
  {
    if messages.Some? then PromptOf(messages.value) else []
  }

  function FlatContext(messages: Option<seq<Message>>, files: FileTexts): string
  {
    if messages.Some? then ContextOf(messages.value, files) else []
  }

  lemma PartsSnoc(ps: seq<Part>, p: Part, files: FileTexts)
    ensures PartsPrompt(ps + [p]) == PartsPrompt(ps) + PartPrompt(p)
    ensures PartsContext(ps + [p], files) == PartsContext(ps, files) + PartContext(p, files)
  {
    assert (ps + [p])[..|ps|] == ps;
  }

  /** The body of the inner loop: a text part extends the prompt, an existing file the context. */
  method AppendPart(part: Part, files: FileTexts, prompt0: string, context0: string)
    returns (prompt: string, context: string)
    ensures prompt == prompt0 + PartPrompt(part)
    ensures context == context0 + PartContext(part, files)
  {
    prompt, context := prompt0, context0;
    if part.TextPart? {
      prompt := prompt + part.text + "\n";
    } else if part.FilePart? {
      var found := files(part.path);
      if found.Some? {
        context := context + ContextBlock(found.value);
      }
    }
  }

  /** The inner loop of the handler: the parts of one message, appended to `prompt` and `context` in order. */
  method AppendParts(ps: seq<Part>, files: FileTexts, prompt0: string, context0: string)
    returns (prompt: string, context: string)
    ensures prompt == prompt0 + PartsPrompt(ps)
    ensures context == context0 + PartsContext(ps, files)
  {
    prompt, context := prompt0, context0;
    var j := 0;
    while j < |ps|
      invariant 0 <= j <= |ps|
      invariant prompt == prompt0 + PartsPrompt(ps[..j])
      invariant context == context0 + PartsContext(ps[..j], files)
    {
      TakeOneMore(ps, j);
      PartsSnoc(ps[..j], ps[j], files);
      AppendAssoc(prompt0, PartsPrompt(ps[..j]), PartPrompt(ps[j]));
      AppendAssoc(context0, PartsContext(ps[..j], files), PartContext(ps[j], files));
      prompt, context := AppendPart(ps[j], files, prompt, context);
      j := j + 1;
    }
    assert ps[..|ps|] == ps;
  }

  /** The outer loop of the handler, over the messages in order. */
  method Flatten(messages: Option<seq<Message>>, files: FileTexts) returns (prompt: string, context: string)
    ensures prompt == FlatPrompt(messages)
    ensures context == FlatContext(messages, files)
  {
    prompt, context := "", "";
    if messages.Some? {
      var msgs := messages.value;
      var i := 0;
      while i < |msgs|
        invariant 0 <= i <= |msgs|
        invariant prompt == PromptOf(msgs[..i])
        invariant context == ContextOf(msgs[..i], files)
      {
        TakeOneMore(msgs, i);
        PromptOfSnoc(msgs[..i], msgs[i]);
        ContextOfSnoc(msgs[..i], msgs[i], files);
        match msgs[i].content {
          case Parts(ps) =>
            prompt, context := AppendParts(ps, files, prompt, context);
          case Plain(t) =>
            prompt := prompt + t + "\n";
            AppendAssoc(PromptOf(msgs[..i]), t, "\n");
            assert context == ContextOf(msgs[..i], files) + MessageContext(msgs[i], files);
        }
        i := i + 1;
      }
      assert msgs[..|msgs|] == msgs;
    }
  }

  // ---------------------------------------------------------------------------
  // What the flattening promises

  /** The texts of the text parts, in order. */
  function TextsOf(ps: seq<Part>): seq<string>
  {
    if ps == [] then []
    else TextsOf(ps[..|ps| - 1]) + (if ps[|ps| - 1].TextPart? then [ps[|ps| - 1].text] else [])
  }

  /**
   * Only text parts reach the prompt: two part lists with the same texts in the
   * same order give the same prompt, whatever file or other parts lie between.
   */
  lemma {:induction false} PromptIgnoresNonText(ps: seq<Part>, qs: seq<Part>)
    requires TextsOf(ps) == TextsOf(qs)
    ensures PartsPrompt(ps) == PartsPrompt(qs)
    decreases |ps| + |qs|
  {
    if ps != [] && !ps[|ps| - 1].TextPart? {
      PromptIgnoresNonText(ps[..|ps| - 1], qs);
    } else if qs != [] && !qs[|qs| - 1].TextPart? {
      PromptIgnoresNonText(ps, qs[..|qs| - 1]);
    } else if ps != [] && qs != [] {
      var tp, tq := TextsOf(ps[..|ps| - 1]), TextsOf(qs[..|qs| - 1]);
      assert tp + [ps[|ps| - 1].text] == tq + [qs[|qs| - 1].text];
      assert tp == (tp + [ps[|ps| - 1].text])[..|tp|];
      assert tq == (tq + [qs[|qs| - 1].text])[..|tq|];
      PromptIgnoresNonText(ps[..|ps| - 1], qs[..|qs| - 1]);
    }
  }

  lemma PromptOfSnoc(msgs: seq<Message>, m: Message)
    ensures PromptOf(msgs + [m]) == PromptOf(msgs) + MessagePrompt(m)
  {
    assert (msgs + [m])[..|msgs|] == msgs;
  }

  lemma ContextOfSnoc(msgs: seq<Message>, m: Message, files: FileTexts)
    ensures ContextOf(msgs + [m], files) == ContextOf(msgs, files) + MessageContext(m, files)
  {
    assert (msgs + [m])[..|msgs|] == msgs;
  }

  /** Messages contribute to the prompt in their order: flattening distributes over concatenation. */
  lemma {:induction false} PromptOfConcat(a: seq<Message>, b: seq<Message>)
    ensures PromptOf(a + b) == PromptOf(a) + PromptOf(b)
    decreases |b|
  {
    if b == [] {
      assert a + b == a;
    } else {
      var init, last := b[..|b| - 1], b[|b| - 1];
      SplitLast(a, b);
      PromptOfSnoc(a + init, last);
      PromptOfSnoc(init, last);
      PromptOfConcat(a, init);
      AppendAssoc(PromptOf(a), PromptOf(init), MessagePrompt(last));
    }
  }

  /** A file that does not exist adds nothing; with no existing file the context stays empty. */
  lemma {:induction false} NoFilesNoContext(msgs: seq<Message>, files: FileTexts)
    requires forall path :: files(path).None?
    ensures ContextOf(msgs, files) == []
    decreases |msgs|
  {
    if msgs != [] {
      NoFilesNoContext(msgs[..|msgs| - 1], files);
      var m := msgs[|msgs| - 1];
      if m.content.Parts? {
        PartsNoContext(m.content.parts, files);
      }
    }
  }

  lemma {:induction false} PartsNoContext(ps: seq<Part>, files: FileTexts)
    requires forall path :: files(path).None?
    ensures PartsContext(ps, files) == []
    decreases |ps|
  {
    if ps != [] {
      PartsNoContext(ps[..|ps| - 1], files);
    }
  }

  /** Each file part whose file exists puts that file's text, between the two markers, into the context. */
  lemma {:induction false} ContextShowsFile(ps: seq<Part>, files: FileTexts, i: nat)
    requires i < |ps| && ps[i].FilePart? && files(ps[i].path).Some?
    ensures Contains(PartsContext(ps, files), ContextBlock(files(ps[i].path).value))
    decreases |ps|
  {
    var init := ps[..|ps| - 1];
    var block := ContextBlock(files(ps[i].path).value);
    if i == |ps| - 1 {
      ContainsConcat(PartsContext(init, files), block);
    } else {
      assert init[i] == ps[i];
      ContextShowsFile(init, files, i);
      ContainsConcat(PartsContext(init, files), PartContext(ps[|ps| - 1], files));
      ContainsTrans(PartsContext(ps, files), PartsContext(init, files), block);
    }
  }

  // ---------------------------------------------------------------------------
  // Cleaning the model's reply

  /** The two markers the reply is cleaned of: a JSON code fence and a bare one. */
  const Fence: string := "```"
  const JsonFence: string := "```json"

  /** `text.replace(/```json/g, '').replace(/```/g, '').trim()`. */
  function Clean(text: string): string
  {
    Trim(RemoveAll(RemoveAll(text, JsonFence), Fence))
  }

  /** Three backticks. */
  predicate IsFence(f: string) { |f| == 3 && f[0] == '`' && f[1] == '`' && f[2] == '`' }

  lemma RemoveFenceFirst(t: string, f: string)
    requires IsFence(f) && |RemoveAll(t, f)| >= 1 && RemoveAll(t, f)[0] == '`'
    ensures |t| >= 1 && t[0] == '`'
  {
  }

  lemma RemoveFenceSecond(t: string, f: string)
    requires IsFence(f) && |RemoveAll(t, f)| >= 2 && RemoveAll(t, f)[0] == '`' && RemoveAll(t, f)[1] == '`'
    ensures |t| >= 2 && t[0] == '`' && t[1] == '`'
  {
    if !OccursAt(t, f, 0) {
      assert RemoveAll(t, f) == [t[0]] + RemoveAll(t[1..], f);
      RemoveFenceFirst(t[1..], f);
    }
  }

  /** When `s` does not start with a fence, neither does its clean-up. */
  lemma NoFenceAtFront(s: string, f: string)
    requires IsFence(f) && s != [] && !OccursAt(s, f, 0)
    ensures !OccursAt(RemoveAll(s, f), f, 0)
  {
    var rest := RemoveAll(s[1..], f);
    assert RemoveAll(s, f) == [s[0]] + rest;
    if |rest| >= 2 && rest[0] == '`' && rest[1] == '`' {
      RemoveFenceSecond(s[1..], f);
    }
  }

  /** When `s` does not start with a fence, a fence further into its clean-up is one in the clean-up of `s[1..]`. */
  lemma NoFenceAfterFront(s: string, f: string, k: int)
    requires IsFence(f) && s != [] && !OccursAt(s, f, 0) && 1 <= k
    requires !Contains(RemoveAll(s[1..], f), f)
    ensures !OccursAt(RemoveAll(s, f), f, k)
  {
    var rest := RemoveAll(s[1..], f);
    var r := RemoveAll(s, f);
    assert r == [s[0]] + rest;
    if OccursAt(r, f, k) {
      assert rest[k - 1..k - 1 + |f|] == r[k..k + |f|];
      assert OccursAt(rest, f, k - 1);
    }
  }

  /** After `replace(/```/g, '')` no fence is left, not even one made of backticks the removals brought together. */
  lemma {:induction false} RemoveFenceLeavesNone(s: string, f: string)
    requires IsFence(f)
    ensures !Contains(RemoveAll(s, f), f)
    decreases |s|
  {
    if s != [] {
      if OccursAt(s, f, 0) {
        RemoveFenceLeavesNone(s[|f|..], f);
      } else {
        RemoveFenceLeavesNone(s[1..], f);
        NoFenceAtFront(s, f);
        forall k | 1 <= k ensures !OccursAt(RemoveAll(s, f), f, k) {
          NoFenceAfterFront(s, f, k);
        }
      }
    }
  }

  /** The cleaned reply holds no fence. */
  lemma CleanHasNoFence(text: string)
    ensures !Contains(Clean(text), Fence)
  {
    var u := RemoveAll(RemoveAll(text, JsonFence), Fence);
    assert IsFence(Fence);
    RemoveFenceLeavesNone(RemoveAll(text, JsonFence), Fence);
    var a, b := TrimSpec(u);
    if Contains(Clean(text), Fence) {
      ContainsInSlice(u, a, b, Fence);
    }
  }

  /** The cleaned reply has no whitespace at either end. */
  lemma CleanIsTrimmed(text: string)
    ensures IsTrimmed(Clean(text))
  {
  }

  /** A reply with no fence and no surrounding whitespace passes through unchanged. */
  lemma CleanKeepsPlainReply(text: string)
    requires !Contains(text, Fence) && IsTrimmed(text)
    ensures Clean(text) == text
  {
    assert OccursAt(JsonFence, Fence, 0) by {
      assert JsonFence[..3] == Fence;
    }
    if Contains(text, JsonFence) {
      ContainsTrans(text, JsonFence, Fence);
    }
    TrimOfTrimmed(text);
  }

  /** Cleaning is idempotent. */
  lemma CleanIdempotent(text: string)
    ensures Clean(Clean(text)) == Clean(text)
  {
    CleanHasNoFence(text);
    CleanKeepsPlainReply(Clean(text));
  }

  // ---------------------------------------------------------------------------
  // The reply

  datatype AtsVerdict = AtsVerdict(score: int, tips: seq<string>)

  /** The analysis object the front end expects. */
  datatype Analysis = Analysis(summary: string, ats: AtsVerdict, techStack: seq<string>,
                               softSkills: seq<string>, improvements: seq<string>)

  /** `message.content`: the fixed analysis when no key is set, the cleaned model text otherwise. */
  datatype ChatReply = Fallback(analysis: Analysis) | Generated(content: string)

  function MissingKeyAnalysis(): Analysis
  {
    Analysis("Gemini API Key missing. Please add GEMINI_API_KEY to backend/.env",
             AtsVerdict(0, ["Config Error"]), [], [], [])
  }

  /**
   * The handler. `apiKey` is `process.env.GEMINI_API_KEY`; `generate` stands for
   * the model call on the final prompt built from the context and the prompt.
   */
  method Chat(apiKey: Option<string>, messages: Option<seq<Message>>, files: FileTexts,
              generate: (string, string) -> string) returns (r: ChatReply)
    ensures IsFalsy(apiKey) ==> r == Fallback(MissingKeyAnalysis())
    ensures !IsFalsy(apiKey) ==> r == Generated(Clean(generate(FlatContext(messages, files), FlatPrompt(messages))))
    ensures r.Generated? ==> !Contains(r.content, Fence) && IsTrimmed(r.content)
  {
    if IsFalsy(apiKey) {
      return Fallback(MissingKeyAnalysis());
    }
    var prompt, context := Flatten(messages, files);
    var text := generate(context, prompt);
    CleanHasNoFence(text);
    CleanIsTrimmed(text);
    r := Generated(Clean(text));
  }
}
