/**
 * The floating tutor chat of components/GeminiTutor.tsx: the panel flag, the
 * input, the loading flag and the message list, and the send handler.
 *
 * As in the builder, the awaited handler is split at the call: `BeginSend`
 * runs before `getTutorResponse`, `FinishSend` after it, and the answer itself
 * is `Architect.TutorResponse` of the call's outcome.
 */
module Tutor {
  import opened Wrappers
  import opened Strings
  import opened Architect

  /** The message the list starts with. */
  const Welcome := ChatMessage(Model, "Hi! I'm DevBuddy. Stuck on a step? Ask me anything!", [])

  datatype TutorState = TutorState(isOpen: bool, input: string, isLoading: bool, messages: seq<ChatMessage>)

  /** The state the component mounts with: closed, empty input, not loading, only the welcome. */
  const Initial := TutorState(false, "", false, [Welcome])

  /** The send gate: blank input, or an answer still loading. */
  predicate SendIgnored(s: TutorState) {
    IsBlank(s.input) || s.isLoading
  }

  /**
   * `handleSend` up to the call: an ignored send changes nothing; otherwise
   * the input becomes the user's message, the input is cleared and loading
   * starts. The question asked is returned.
   */
  function BeginStep(s: TutorState): (r: (TutorState, Option<string>))
    ensures SendIgnored(s) ==> r == (s, None)
    ensures !SendIgnored(s) ==>
      r == (s.(messages := s.messages + [ChatMessage(User, s.input, [])], input := "", isLoading := true), Some(s.input))
  {
    if SendIgnored(s) then (s, None)
    else (s.(messages := s.messages + [ChatMessage(User, s.input, [])], input := "", isLoading := true), Some(s.input))
  }

  /** `handleSend` after the call: the answer is appended and loading ends. */
  function FinishStep(s: TutorState, responseText: string): TutorState {
    s.(messages := s.messages + [ChatMessage(Model, responseText, [])], isLoading := false)
  }

  /**
   * The conversation's shape: the welcome comes first, then the user and the
   * tutor take turns, and the list ends on a user message exactly while an
   * answer is loading.
   */
  predicate Conversation(s: TutorState) {
    && |s.messages| > 0 && s.messages[0] == Welcome
    && (forall i :: 0 <= i < |s.messages| ==> s.messages[i].role == if i % 2 == 0 then Model else User)
    && (s.isLoading <==> |s.messages| % 2 == 0)
  }

  lemma InitialConversation()
    ensures Conversation(Initial) && Initial.messages == [Welcome] && !Initial.isLoading
  {
  }

  /** Both halves of a send keep the conversation's shape. */
  lemma StepsKeepConversation(s: TutorState, responseText: string)
    requires Conversation(s)
    ensures Conversation(BeginStep(s).0)
    ensures s.isLoading ==> Conversation(FinishStep(s, responseText))
  {
    var t := BeginStep(s).0;
    if !SendIgnored(s) {
      assert forall i :: 0 <= i < |s.messages| ==> t.messages[i] == s.messages[i];
    }
    if s.isLoading {
      var f := FinishStep(s, responseText);
      assert forall i :: 0 <= i < |s.messages| ==> f.messages[i] == s.messages[i];
    }
  }

  /**
   * An accepted send appends the user's message (the input as typed) and then
   * exactly one answer, in that order, leaving earlier messages unchanged; the
   * input is cleared, and loading is on in between and off afterwards.
   */
  lemma SendAppendsInOrder(s: TutorState, apiKey: string, outcome: TutorOutcome)
    requires !SendIgnored(s)
    ensures var b := BeginStep(s);
      && b.1 == Some(s.input) && b.0.isLoading && b.0.input == ""
      && var r := FinishStep(b.0, TutorResponse(apiKey, outcome));
      && r.messages == s.messages + [ChatMessage(User, s.input, []), ChatMessage(Model, TutorResponse(apiKey, outcome), [])]
      && r.input == "" && !r.isLoading && r.isOpen == s.isOpen
  {
  }

  class TutorChat {
    var isOpen: bool
    var input: string
    var isLoading: bool
    var messages: seq<ChatMessage>

    function St(): TutorState
      reads this
    {
      TutorState(isOpen, input, isLoading, messages)
    }

    constructor ()
      ensures St() == Initial
    {
      isOpen, input, isLoading := false, "", false;
      messages := [Welcome];
    }

    method SetOpen(open: bool)
      modifies this
      ensures St() == old(St()).(isOpen := open)
    {
      isOpen := open;
    }

    method SetInput(text: string)
      modifies this
      ensures St() == old(St()).(input := text)
    {
      input := text;
    }

    /** `handleSend` up to the call; returns the question to ask, if any. */
    method BeginSend() returns (question: Option<string>)
      modifies this
      ensures (St(), question) == BeginStep(old(St()))
    {
      if IsBlank(input) || isLoading {
        return None;
      }
      var userMsg := ChatMessage(User, input, []);
      messages := messages + [userMsg];
      input := "";
      isLoading := true;
      question := Some(userMsg.text);
    }

    /** `handleSend` after the call. */
    method FinishSend(responseText: string)
      modifies this
      ensures St() == FinishStep(old(St()), responseText)
    {
      var botMsg := ChatMessage(Model, responseText, []);
      messages := messages + [botMsg];
      isLoading := false;
    }

    /**
     * A send with nothing happening during the call; `outcome` is what the
     * model service does and `asked` the contents sent to it, if anything was.
     */
    method Send(apiKey: string, currentContext: string, outcome: TutorOutcome) returns (asked: Option<string>)
      modifies this
      ensures var b := BeginStep(old(St()));
        && (b.1.None? ==> St() == old(St()) && asked.None?)
        && (b.1.Some? ==>
              St() == FinishStep(b.0, TutorResponse(apiKey, outcome))
              && asked == (if apiKey == "" then None else Some(TutorContents(b.1.value, currentContext))))
    {
      var question := BeginSend();
      if question.None? {
        return None;
      }
      asked := if apiKey == "" then None else Some(TutorContents(question.value, currentContext));
      var responseText := TutorResponse(apiKey, outcome);
      FinishSend(responseText);
    }
  }
}
