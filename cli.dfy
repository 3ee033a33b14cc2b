/**
 * The command-line chat of cli.py: a transcript seeded with one persona
 * system turn, then one user turn and one assistant turn per line typed,
 * until the user types "quit" in any letter case.
 */
module Cli {
  import opened Wrappers
  import opened Text
  import opened Turns
  import opened Services

  const ChatModel: string := "cognitivecomputations/dolphin-2.6-mixtral-8x7b"

  /** `message.lower() == "quit"`: the whole line, not a part of it. */
  predicate IsQuit(message: string)
  {
    Lower(message) == "quit"
  }

  /** "quit" ends the chat in any letter case, but only as the whole line. */
  lemma QuitIsTheWholeLine()
    ensures IsQuit("QuIt") && IsQuit("quit")
    ensures !IsQuit("quit now") && !IsQuit(" quit")
  {
    assert Lower("QuIt") == "quit";
  }

  /** The lines the loop answers: every line typed before the first "quit". */
  function BeforeQuit(inputs: seq<string>): (said: seq<string>)
    ensures |said| <= |inputs| && said == inputs[..|said|]
    ensures forall i :: 0 <= i < |said| ==> !IsQuit(said[i])
    ensures |said| < |inputs| ==> IsQuit(inputs[|said|])
  {
    if inputs == [] || IsQuit(inputs[0]) then []
    else [inputs[0]] + BeforeQuit(inputs[1..])
  }

  /** The loop stops at the first "quit" line, or when the lines run out. */
  lemma BeforeQuitStopsAt(inputs: seq<string>, i: nat)
    requires i <= |inputs|
    requires forall j :: 0 <= j < i ==> !IsQuit(inputs[j])
    requires i == |inputs| || IsQuit(inputs[i])
    ensures BeforeQuit(inputs) == inputs[..i]
  {
  }

  /**
   * The transcript after answering the lines `said` one by one, starting from
   * `history`, when the chat model had already received `calls` requests:
   * each line is appended as a user turn, the model is sent the transcript so
   * far, and its answer is appended as an assistant turn.
   */
  function Converse(answer: (nat, ChatRequest) -> string, calls: nat, history: seq<Turn>, said: seq<string>)
    : (t: seq<Turn>)
    ensures |t| == |history| + 2 * |said|
    ensures t[..|history|] == history
    decreases |said|
  {
    if said == [] then history
    else
      var before := Converse(answer, calls, history, said[..|said| - 1]);
      var asked := before + [Said(User, said[|said| - 1])];
      asked + [Said(Assistant, answer(calls + |said| - 1, ChatRequest(ChatModel, asked)))]
  }

  /** Answering fewer lines gives a prefix of the transcript. */
  lemma {:induction false} ConversePrefix(answer: (nat, ChatRequest) -> string, calls: nat, history: seq<Turn>,
                                          said: seq<string>, k: nat)
    requires k <= |said|
    ensures Converse(answer, calls, history, said[..k])
         == Converse(answer, calls, history, said)[..|history| + 2 * k]
    decreases |said|
  {
    if k < |said| {
      var shorter := said[..|said| - 1];
      assert shorter[..k] == said[..k];
      ConversePrefix(answer, calls, history, shorter, k);
    } else {
      assert said[..k] == said;
    }
  }

  /**
   * Line j of the input becomes the user turn at position |history| + 2j, and
   * the next turn is the model's answer to the transcript up to and including
   * that user turn.
   */
  lemma {:induction false} ConverseAt(answer: (nat, ChatRequest) -> string, calls: nat, history: seq<Turn>,
                                      said: seq<string>, j: nat)
    requires j < |said|
    ensures var t := Converse(answer, calls, history, said);
      && t[|history| + 2 * j] == Said(User, said[j])
      && t[|history| + 2 * j + 1]
         == Said(Assistant, answer(calls + j, ChatRequest(ChatModel, t[..|history| + 2 * j + 1])))
    decreases |said|
  {
    var n := |history| + 2 * j;
    var shorter := said[..|said| - 1];
    var before := Converse(answer, calls, history, shorter);
    var asked := before + [Said(User, said[|said| - 1])];
    var t := asked + [Said(Assistant, answer(calls + |said| - 1, ChatRequest(ChatModel, asked)))];
    assert t == Converse(answer, calls, history, said);
    if j == |said| - 1 {
      assert t[..n + 1] == asked;
    } else {
      ConverseAt(answer, calls, history, shorter, j);
      assert shorter[j] == said[j];
      assert t[n] == before[n] && t[n + 1] == before[n + 1];
      assert t[..n + 1] == before[..n + 1];
    }
  }

  /** Answering one more line appends its user turn and the model's answer to it. */
  lemma ConverseSnoc(answer: (nat, ChatRequest) -> string, calls: nat, history: seq<Turn>, said: seq<string>,
                     line: string)
    ensures var asked := Converse(answer, calls, history, said) + [Said(User, line)];
      Converse(answer, calls, history, said + [line])
      == asked + [Said(Assistant, answer(calls + |said|, ChatRequest(ChatModel, asked)))]
  {
    assert (said + [line])[..|said|] == said;
  }

  /**
   * The shape of the CLI transcript: one system turn, then user and
   * assistant turns alternating, one pair per line answered.
   */
  lemma TranscriptShape(answer: (nat, ChatRequest) -> string, calls: nat, persona: string, said: seq<string>)
    ensures var t := Converse(answer, calls, [Said(System, persona)], said);
      && |t| == 1 + 2 * |said|
      && t[0] == Said(System, persona)
      && Alternating(t[1..])
  {
    var t := Converse(answer, calls, [Said(System, persona)], said);
    forall i | 0 <= i < |t| - 1
      ensures t[1..][i].role == (if i % 2 == 0 then User else Assistant)
    {
      ConverseAt(answer, calls, [Said(System, persona)], said, i / 2);
    }
  }

  /**
   * The requests the chat model receives while the lines `said` are answered:
   * for each line, the transcript ending in that line's user turn.
   */
  function Asked(answer: (nat, ChatRequest) -> string, calls: nat, history: seq<Turn>, said: seq<string>)
    : (r: seq<ChatRequest>)
    ensures |r| == |said|
    decreases |said|
  {
    if said == [] then []
    else
      var shorter := said[..|said| - 1];
      Asked(answer, calls, history, shorter)
        + [ChatRequest(ChatModel, Converse(answer, calls, history, shorter) + [Said(User, said[|said| - 1])])]
  }

  /**
   * Request j carries the transcript up to and including the user turn of
   * line j, the same transcript whose answer is the next turn.
   */
  lemma {:induction false} AskedAt(answer: (nat, ChatRequest) -> string, calls: nat, history: seq<Turn>,
                                   said: seq<string>, j: nat)
    requires j < |said|
    ensures Asked(answer, calls, history, said)[j]
         == ChatRequest(ChatModel, Converse(answer, calls, history, said)[..|history| + 2 * j + 1])
    decreases |said|
  {
    var n := |history| + 2 * j;
    var shorter := said[..|said| - 1];
    var before := Converse(answer, calls, history, shorter);
    var asked := before + [Said(User, said[|said| - 1])];
    var t := asked + [Said(Assistant, answer(calls + |said| - 1, ChatRequest(ChatModel, asked)))];
    assert t == Converse(answer, calls, history, said);
    if j == |said| - 1 {
      assert t[..n + 1] == asked;
    } else {
      AskedAt(answer, calls, history, shorter, j);
      assert t[..n + 1] == before[..n + 1];
    }
  }

  /**
   * `chat()`: read lines from `inputs` until "quit" (or until they run out),
   * answering each one with the chat model. Returns the transcript.
   */
  method Chat(api: ChatApi, persona: string, inputs: seq<string>) returns (transcript: seq<Turn>)
    modifies api
    ensures transcript == Converse(api.answer, |old(api.requests)|, [Said(System, persona)], BeforeQuit(inputs))
    ensures api.requests
         == old(api.requests) + Asked(api.answer, |old(api.requests)|, [Said(System, persona)], BeforeQuit(inputs))
  {
    ghost var calls := |api.requests|;
    ghost var system := [Said(System, persona)];
    var messages := [Said(System, persona)];
    var i := 0;
    while i < |inputs|
      invariant 0 <= i <= |inputs|
      invariant forall j :: 0 <= j < i ==> !IsQuit(inputs[j])
      invariant messages == Converse(api.answer, calls, system, inputs[..i])
      invariant api.requests == old(api.requests) + Asked(api.answer, calls, system, inputs[..i])
    {
      var message := inputs[i];
      if Lower(message) == "quit" {
        break;
      }
      messages := messages + [Said(User, message)];
      var reply := api.Complete(ChatRequest(ChatModel, messages));
      messages := messages + [Said(Assistant, reply)];
      assert inputs[..i + 1][..i] == inputs[..i];
      i := i + 1;
    }
    BeforeQuitStopsAt(inputs, i);
    transcript := messages;
  }
}
