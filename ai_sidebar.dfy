// The AI assistant panel: its resizable width, how an answer is laid out
// line by line, sending a question and starting a new chat.
module AISidebar {
  import opened Wrappers
  import opened Strings

  const MIN_WIDTH: int := 320
  const MAX_WIDTH: int := 600

  /** The bullet marker as it is spelled in the component: the three characters `â€¢`. */
  const MOJIBAKE_BULLET: string := "\U{00E2}\U{20AC}\U{00A2}"
  /** The bullet character `•` that the three characters above are a mis-decoding of. */
  const BULLET: string := "\U{2022}"

  const GENERIC_ERROR := "Sorry, I encountered an error. Please try again."
  const SESSION_EXPIRED := "Your session has expired. Please try your question again."
  const NO_PERMISSION := "You do not have permission to use this feature. Please contact support."
  const AI_UNAVAILABLE := "The AI service is temporarily unavailable. Please try again in a few moments."
  const NETWORK_ERROR := "Network connection error. Please check your internet connection and try again."

  /** `Math.max(MIN_WIDTH, Math.min(MAX_WIDTH, width + dragOffset))` */
  function ClampWidth(width: int, dragOffset: int): (w: int)
    ensures MIN_WIDTH <= w <= MAX_WIDTH
    ensures MIN_WIDTH <= width + dragOffset <= MAX_WIDTH ==> w == width + dragOffset
    ensures width + dragOffset < MIN_WIDTH ==> w == MIN_WIDTH
    ensures width + dragOffset > MAX_WIDTH ==> w == MAX_WIDTH
  {
    if width + dragOffset > MAX_WIDTH then MAX_WIDTH
    else if width + dragOffset < MIN_WIDTH then MIN_WIDTH
    else width + dragOffset
  }

  /** One laid-out line of an answer. */
  datatype Line = Bullet(text: string) | ProductLine(text: string) | TextLine(text: string)

  /** `.filter(line => line.trim())`: the lines that are not blank, in order. */
  function NonBlank(lines: seq<string>): (r: seq<string>)
    ensures |r| <= |lines|
    ensures forall i :: 0 <= i < |r| ==> Trim(r[i]) != [] && r[i] in lines
  {
    if lines == [] then []
    else if Trim(lines[0]) == [] then NonBlank(lines[1..])
    else [lines[0]] + NonBlank(lines[1..])
  }

  /** A trimmed line that opens with `-` or with the bullet marker. */
  predicate IsBulletLine(trimmed: string, bullet: string) {
    (trimmed != [] && trimmed[0] == '-') || bullet <= trimmed
  }

  /**
   * One trimmed line: a bullet, whose text drops the first character, when
   * it opens with `-` or the bullet marker; else a product line when it has
   * both parentheses; else a text line.
   */
  function FormatLine(trimmed: string, bullet: string): (l: Line)
    ensures IsBulletLine(trimmed, bullet) && trimmed != [] ==> l == Bullet(Trim(trimmed[1..]))
    ensures !IsBulletLine(trimmed, bullet) ==> l.text == trimmed
    ensures !IsBulletLine(trimmed, bullet) ==> (l.ProductLine? <==> '(' in trimmed && ')' in trimmed)
  {
    if IsBulletLine(trimmed, bullet) then Bullet(Trim(if trimmed == [] then [] else trimmed[1..]))
    else if '(' in trimmed && ')' in trimmed then ProductLine(trimmed)
    else TextLine(trimmed)
  }

  function FormatLines(lines: seq<string>, bullet: string): (r: seq<Line>)
    ensures |r| == |lines|
    ensures forall i :: 0 <= i < |lines| ==> r[i] == FormatLine(Trim(lines[i]), bullet)
  {
    if lines == [] then [] else [FormatLine(Trim(lines[0]), bullet)] + FormatLines(lines[1..], bullet)
  }

  /** `formatAIAnswer(text)` with a given bullet marker: nothing for a missing or empty answer. */
  function FormatAnswerWith(text: Option<string>, bullet: string): (r: seq<Line>)
    ensures text.None? || text.value == "" ==> r == []
    ensures text.Some? && text.value != "" ==> |r| == |NonBlank(Split(text.value, {'\n'}))|
  {
    if text.None? || text.value == "" then []
    else FormatLines(NonBlank(Split(text.value, {'\n'})), bullet)
  }

  /** `formatAIAnswer` as written, with the three-character marker. */
  function FormatAIAnswerAsWritten(text: Option<string>): (r: seq<Line>)
    ensures text.None? || text.value == "" ==> r == []
  {
    FormatAnswerWith(text, MOJIBAKE_BULLET)
  }

  /** `formatAIAnswer` with the single bullet character it evidently means. */
  function FormatAIAnswer(text: Option<string>): (r: seq<Line>)
    ensures text.None? || text.value == "" ==> r == []
  {
    FormatAnswerWith(text, BULLET)
  }

  /** Every laid-out line comes from a non-blank line; product and text lines keep it trimmed. */
  lemma FormatKeepsText(text: string, i: nat)
    requires i < |FormatAIAnswer(Some(text))|
    ensures var lines := NonBlank(Split(text, {'\n'}));
            i < |lines| &&
            var l := FormatAIAnswer(Some(text))[i];
            !l.Bullet? ==> l.text == Trim(lines[i]) && l.text != []
  {
    var lines := NonBlank(Split(text, {'\n'}));
    assert FormatAIAnswer(Some(text)) == FormatLines(lines, BULLET);
    assert Trim(lines[i]) != [];
  }

  /**
   * With the corrected marker, a bullet line `• text` lays out as the bullet
   * `text`: the marker is exactly the one character dropped.
   */
  lemma BulletMarkerDropped(rest: string)
    requires rest == Trim(rest) && rest != []
    ensures FormatLine(BULLET + " " + rest, BULLET) == Bullet(rest)
  {
    var line := BULLET + " " + rest;
    assert line[1..] == " " + rest;
    TrimLeadingSpace(rest);
  }

  /** As written, a mis-decoded bullet keeps two stray characters, and a real `•` line is not a bullet at all. */
  lemma MojibakeBulletKeepsStrayChars()
    ensures FormatLine(MOJIBAKE_BULLET + " Fast delivery", MOJIBAKE_BULLET) == Bullet("\U{20AC}\U{00A2} Fast delivery")
    ensures FormatLine(BULLET + " Fast delivery", MOJIBAKE_BULLET) == TextLine(BULLET + " Fast delivery")
  {
    var a := MOJIBAKE_BULLET + " Fast delivery";
    var stray := "\U{20AC}\U{00A2} Fast delivery";
    assert a[1..] == stray;
    TrimUnchanged(stray);
    assert IsBulletLine(a, MOJIBAKE_BULLET);
    var b := BULLET + " Fast delivery";
    assert !(MOJIBAKE_BULLET <= b) by { assert b[0] != MOJIBAKE_BULLET[0]; }
    assert b[0] != '-';
    assert !IsBulletLine(b, MOJIBAKE_BULLET);
    assert '(' !in b;
  }

  /** Trimming `" " + s` for an already trimmed, non-empty `s` gives `s`. */
  lemma TrimLeadingSpace(s: string)
    requires s == Trim(s) && s != []
    ensures Trim(" " + s) == s
  {
    var t := " " + s;
    assert t[1..] == s;
    assert TrimStart(t) == TrimStart(s);
  }

  /**
   * The system message for a failed request, chosen by what its message
   * mentions: `401`, `403`, `500`, then `network` or `fetch`.
   */
  function ErrorText(message: string): (r: string)
    ensures Contains(message, "401") ==> r == SESSION_EXPIRED
    ensures !Contains(message, "401") && Contains(message, "403") ==> r == NO_PERMISSION
    ensures r in {SESSION_EXPIRED, NO_PERMISSION, AI_UNAVAILABLE, NETWORK_ERROR, GENERIC_ERROR}
    ensures r == GENERIC_ERROR <==>
              !Contains(message, "401") && !Contains(message, "403") && !Contains(message, "500") &&
              !Contains(message, "network") && !Contains(message, "fetch")
  {
    if message != "" && Contains(message, "401") then SESSION_EXPIRED
    else if message != "" && Contains(message, "403") then NO_PERMISSION
    else if message != "" && Contains(message, "500") then AI_UNAVAILABLE
    else if (message != "" && Contains(message, "network")) || Contains(message, "fetch") then NETWORK_ERROR
    else GENERIC_ERROR
  }

  /** Who wrote a chat message. */
  datatype Sender = User | AI | System

  /** A chat message: its author, its text and its conversation. */
  datatype ChatMessage = ChatMessage(sender: Sender, text: string, conversationId: string)

  /** How the request ended: a reply, a reply flagged unsuccessful, or a thrown error and its message. */
  datatype AIReply =
    | Answered(response: string, conversationId: Option<string>)
    | Unsuccessful
    | Failed(message: string)

  /** What the send appends after the user's message. */
  function ReplyMessages(reply: AIReply, conversationId: string): (r: seq<ChatMessage>)
    ensures |r| <= 1
    ensures reply.Answered? ==> r == [ChatMessage(AI, reply.response, FirstNonEmpty(reply.conversationId, conversationId))]
    ensures reply.Unsuccessful? ==> r == []
    ensures reply.Failed? ==> r == [ChatMessage(System, ErrorText(reply.message), conversationId)]
  {
    match reply
    case Answered(response, cid) => [ChatMessage(AI, response, FirstNonEmpty(cid, conversationId))]
    case Unsuccessful => []
    case Failed(message) => [ChatMessage(System, ErrorText(message), conversationId)]
  }

  /** The first id unless it is missing or empty: the reply's id over the one sent, and the current conversation over a fresh one. */
  function FirstNonEmpty(a: Option<string>, b: string): (r: string)
    ensures a.Some? && a.value != "" ==> r == a.value
    ensures a.None? || a.value == "" ==> r == b
  {
    if a.Some? && a.value != "" then a.value else b
  }

  /**
   * What one send appends: the user's question first, then the assistant's
   * answer or a system message, or nothing more for an unsuccessful reply.
   */
  function SendMessages(question: string, id: string, reply: AIReply): (r: seq<ChatMessage>)
    ensures 1 <= |r| <= 2 && r[0] == ChatMessage(User, question, id)
    ensures |r| == 2 <==> !reply.Unsuccessful?
    ensures |r| == 2 ==> r[1].sender == (if reply.Answered? then AI else System)
  {
    [ChatMessage(User, question, id)] + ReplyMessages(reply, id)
  }

  /** Appending a message and then a tail appends the message followed by the tail. */
  lemma AppendInTwoSteps(before: seq<ChatMessage>, m: ChatMessage, tail: seq<ChatMessage>)
    ensures before + [m] + tail == before + ([m] + tail)
  {
  }

  /** The chat panel's state. */
  class ChatPanel {
    var width: int
    var isDragging: bool
    var currentConversationId: Option<string>
    var conversationHistory: seq<ChatMessage>
    var isLoading: bool
    var currentMessage: string
    /** Whether `aiChatScrollPosition` is stored. */
    var scrollSaved: bool

    predicate Valid()
      reads this
    {
      MIN_WIDTH <= width <= MAX_WIDTH
    }

    constructor ()
      ensures Valid() && width == MIN_WIDTH && !isDragging && currentConversationId.None?
      ensures conversationHistory == [] && !isLoading && currentMessage == "" && !scrollSaved
    {
      width, isDragging := MIN_WIDTH, false;
      currentConversationId, conversationHistory, isLoading, currentMessage, scrollSaved := None, [], false, "", false;
    }

    /** A mouse move while dragging: the width follows the mouse within the bounds. */
    method OnMouseMove(containerLeft: int, clientX: int)
      requires Valid()
      modifies this`width
      ensures Valid()
      ensures isDragging ==> width == ClampWidth(old(width), containerLeft - clientX)
      ensures !isDragging ==> width == old(width)
    {
      if !isDragging {
        return;
      }
      width := ClampWidth(width, containerLeft - clientX);
    }

    /**
     * `handleSendMessage` up to its `await`, with the id a new conversation
     * gets as an input: ignored for a blank message or while a reply is
     * loading; otherwise the conversation keeps (or gets) its id, the
     * history gains the trimmed question and loading starts. `started`
     * says whether a request went out, and `conversationId` is the id the
     * pending reply will be filed under.
     */
    method SendStarted(freshId: string) returns (started: bool, conversationId: string)
      modifies this`currentConversationId, this`conversationHistory, this`isLoading, this`currentMessage, this`scrollSaved
      ensures started <==> !IsBlank(old(currentMessage)) && !old(isLoading)
      ensures !started ==>
                currentConversationId == old(currentConversationId) && conversationHistory == old(conversationHistory) &&
                isLoading == old(isLoading) && currentMessage == old(currentMessage) && scrollSaved == old(scrollSaved)
      ensures started ==>
                conversationId == FirstNonEmpty(old(currentConversationId), freshId) &&
                currentConversationId == Some(conversationId) &&
                conversationHistory == old(conversationHistory) + [ChatMessage(User, Trim(old(currentMessage)), conversationId)] &&
                isLoading && currentMessage == "" && !scrollSaved
    {
      BlankIffTrimEmpty(currentMessage);
      var question := Trim(currentMessage);
      if question == [] || isLoading {
        return false, "";
      }
      conversationId := FirstNonEmpty(currentConversationId, freshId);
      currentConversationId := Some(conversationId);
      conversationHistory := conversationHistory + [ChatMessage(User, question, conversationId)];
      currentMessage := "";
      isLoading := true;
      scrollSaved := false;
      started := true;
    }

    /**
     * `handleSendMessage` after its `await`, with the request's outcome as
     * an input: what the reply adds is appended to whatever history is
     * current at that moment, under the id the request was sent with, and
     * loading is over. Nothing else is read again, so a New Chat in
     * between does not stop it.
     */
    method ReplySettled(conversationId: string, reply: AIReply)
      modifies this`conversationHistory, this`isLoading
      ensures conversationHistory == old(conversationHistory) + ReplyMessages(reply, conversationId)
      ensures !isLoading
    {
      conversationHistory := conversationHistory + ReplyMessages(reply, conversationId);
      isLoading := false;
    }

    /**
     * `handleSendMessage` when nothing else runs during the `await`: the
     * two halves back to back. The history gains the trimmed question and
     * then what the reply adds, and loading is over.
     */
    method HandleSendMessage(freshId: string, reply: AIReply)
      modifies this`currentConversationId, this`conversationHistory, this`isLoading, this`currentMessage, this`scrollSaved
      ensures IsBlank(old(currentMessage)) || old(isLoading) ==>
                currentConversationId == old(currentConversationId) && conversationHistory == old(conversationHistory) &&
                isLoading == old(isLoading) && currentMessage == old(currentMessage) && scrollSaved == old(scrollSaved)
      ensures !IsBlank(old(currentMessage)) && !old(isLoading) ==>
                currentConversationId == Some(FirstNonEmpty(old(currentConversationId), freshId)) &&
                conversationHistory == old(conversationHistory) +
                  SendMessages(Trim(old(currentMessage)), FirstNonEmpty(old(currentConversationId), freshId), reply) &&
                !isLoading && currentMessage == "" && !scrollSaved
    {
      BlankIffTrimEmpty(currentMessage);
      ghost var before := conversationHistory;
      ghost var question := Trim(currentMessage);
      ghost var id := FirstNonEmpty(currentConversationId, freshId);
      var started, conversationId := SendStarted(freshId);
      if !started {
        return;
      }
      assert conversationId == id;
      ghost var sent := conversationHistory;
      assert sent == before + [ChatMessage(User, question, id)];
      ReplySettled(conversationId, reply);
      assert conversationHistory == sent + ReplyMessages(reply, id);
      AppendInTwoSteps(before, ChatMessage(User, question, id), ReplyMessages(reply, id));
      assert conversationHistory == old(conversationHistory) + SendMessages(Trim(old(currentMessage)), FirstNonEmpty(old(currentConversationId), freshId), reply);
      assert !IsBlank(old(currentMessage)) && !old(isLoading);
    }

    /** `handleNewChat`: nothing loading, no conversation, no draft, no history, no saved scroll position. */
    method HandleNewChat()
      modifies this`isLoading, this`currentConversationId, this`currentMessage, this`conversationHistory, this`scrollSaved
      ensures !isLoading && currentConversationId.None? && currentMessage == "" && conversationHistory == [] && !scrollSaved
    {
      isLoading, currentConversationId, currentMessage, conversationHistory, scrollSaved := false, None, "", [], false;
    }
  }

  /**
   * New Chat pressed while a reply is awaited (its buttons are never
   * disabled): the history and the conversation are cleared and loading
   * stops, but the reply still lands afterwards, in the cleared history,
   * filed under the conversation that was just left.
   */
  method NewChatDuringReply(panel: ChatPanel, freshId: string, reply: AIReply) returns (started: bool)
    modifies panel
    ensures started <==> !IsBlank(old(panel.currentMessage)) && !old(panel.isLoading)
    ensures started ==>
              panel.currentConversationId.None? && !panel.isLoading &&
              panel.conversationHistory == ReplyMessages(reply, FirstNonEmpty(old(panel.currentConversationId), freshId))
    ensures started && reply.Failed? ==>
              |panel.conversationHistory| == 1 && panel.conversationHistory[0].sender == System &&
              panel.conversationHistory[0].conversationId == FirstNonEmpty(old(panel.currentConversationId), freshId)
  {
    var conversationId;
    started, conversationId := panel.SendStarted(freshId);
    if !started {
      return;
    }
    panel.HandleNewChat();
    panel.ReplySettled(conversationId, reply);
  }
}
