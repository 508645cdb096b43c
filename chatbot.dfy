/**
 * The lawyer chatbot (rag-juridique/api/chatbot_avocat.py): a conversation manager
 * holding one message list per conversation id, the retrieval of sources for a question,
 * the confidence given to a generated answer, the fallback answer built from the
 * sources when generation fails, the suggested follow-up actions, and the `chat` flow
 * that ties them together.
 *
 * The search service, the prompt text and the language model are parameters: `search`
 * answers a query, `buildPrompt` stands for the prompt assembly, and `generate` gives
 * the model's reply to a prompt.
 */
module ChatbotAvocat {
  import opened Wrappers
  import opened Strings
  import opened ApiModels

  /** One message of a conversation (its timestamp is not modelled). */
  datatype ChatMessage = ChatMessage(role: string, content: string)

  /** A source cited by the chatbot. */
  datatype Source = Source(kind: string, reference: string, text: string, relevance: real)

  datatype ChatResponse = ChatResponse(
    response: string,
    sources: seq<Source>,
    conversationId: string,
    suggestedActions: seq<string>,
    confidence: real)

  function Min(a: int, b: int): int {
    if a < b then a else b
  }

  // ---------------------------------------------------------------------------
  // Conversation history
  // ---------------------------------------------------------------------------

  /**
   * Python's `history[-n:]`. For a positive `n` it is the last `n` messages (all of
   * them when there are fewer); `-0` is `0`, so `n == 0` gives the whole history; a
   * negative `n` drops the first `-n` messages.
   */
  function LastMessages(history: seq<ChatMessage>, n: int): (r: seq<ChatMessage>)
    ensures n > 0 ==> |r| == Min(n, |history|)
    ensures n == 0 ==> r == history
    ensures n < 0 ==> |r| == |history| - Min(-n, |history|)
    ensures |r| <= |history| && r == history[|history| - |r|..]
  {
    if n > 0 then history[|history| - Min(n, |history|)..]
    else if n == 0 then history
    else history[Min(-n, |history|)..]
  }

  /** The window read after appending a message ends with that message, keeps the order of
      what precedes it, and never holds more than `n` messages. */
  lemma WindowEndsWithLatest(history: seq<ChatMessage>, latest: ChatMessage, n: int)
    requires n > 0
    ensures var w := LastMessages(history + [latest], n);
      w != [] && w[|w| - 1] == latest && |w| <= n
      && w[..|w| - 1] == history[|history| - (|w| - 1)..]
  {
    var h := history + [latest];
    var w := LastMessages(h, n);
    assert w == h[|h| - |w|..];
    assert w[..|w| - 1] == h[|h| - |w|..|h| - 1];
    assert h[..|history|] == history;
  }

  /** The dictionary of conversations, each a list of messages in arrival order. */
  class ConversationManager {
    var conversations: map<string, seq<ChatMessage>>

    constructor()
      ensures conversations == map[]
    {
      conversations := map[];
    }

    /** The messages of `convId`, or none when it is not registered. */
    function History(convId: string): seq<ChatMessage>
      reads this
    {
      if convId in conversations then conversations[convId] else []
    }

    /** Registers `freshId` (a new UUID in the source) with an empty history. */
    method CreateConversation(freshId: string) returns (convId: string)
      modifies this
      ensures convId == freshId
      ensures conversations == old(conversations)[convId := []]
      ensures History(convId) == []
    {
      conversations := conversations[freshId := []];
      convId := freshId;
    }

    /** Appends one message at the end of `convId`, creating the conversation if missing;
        no other conversation changes. */
    method AddMessage(convId: string, role: string, content: string)
      modifies this
      ensures conversations == old(conversations)[convId := old(History(convId)) + [ChatMessage(role, content)]]
      ensures History(convId) == old(History(convId)) + [ChatMessage(role, content)]
      ensures forall id :: id != convId ==> History(id) == old(History(id))
    {
      if convId !in conversations {
        conversations := conversations[convId := []];
      }
      conversations := conversations[convId := conversations[convId] + [ChatMessage(role, content)]];
    }

    /** The last `maxMessages` messages of `convId` in order, or none for an unknown id. */
    function GetHistory(convId: string, maxMessages: int): (r: seq<ChatMessage>)
      reads this
      ensures convId !in conversations ==> r == []
      ensures convId in conversations && maxMessages > 0 ==>
        |r| == Min(maxMessages, |conversations[convId]|)
      ensures convId in conversations && maxMessages == 0 ==> r == conversations[convId]
      ensures |r| <= |History(convId)| && r == History(convId)[|History(convId)| - |r|..]
    {
      if convId !in conversations then [] else LastMessages(conversations[convId], maxMessages)
    }

    /** Forgets `convId`; clearing an id that is not there changes nothing, so clearing
        twice is the same as clearing once. */
    method ClearConversation(convId: string)
      modifies this
      ensures conversations == old(conversations) - {convId}
      ensures convId !in conversations
      ensures old(convId !in conversations) ==> conversations == old(conversations)
    {
      if convId in conversations {
        conversations := conversations - {convId};
      }
    }
  }

  // ---------------------------------------------------------------------------
  // Sources
  // ---------------------------------------------------------------------------

  /** One hit of the search service: each field may be missing. */
  datatype SearchHit = SearchHit(
    title: Option<string>,
    content: Option<string>,
    score: Option<real>,
    breadcrumb: Option<string>)

  /** The source built from a hit. */
  function SourceOf(hit: SearchHit): Source {
    var title := hit.title.GetOr("");
    var kind := if Contains(Lower(title), "article") then "code" else "jurisprudence";
    Source(kind, title, Take(hit.content.GetOr(""), 300) + "...", hit.score.GetOr(0.0))
  }

  /** A hit whose lower-cased title mentions "article" is a code article, anything else
      case law; the reference is the title; the text is the content cut to 300
      characters and followed by "..."; a missing score counts as 0. */
  lemma SourceOfFacts(hit: SearchHit)
    ensures var s := SourceOf(hit);
      && (s.kind == "code" <==> Contains(Lower(hit.title.GetOr("")), "article"))
      && (s.kind == "code" || s.kind == "jurisprudence")
      && s.reference == hit.title.GetOr("")
      && EndsWith(s.text, "...") && |s.text| <= 303
      && StartsWith(hit.content.GetOr(""), s.text[..|s.text| - 3])
      && s.relevance == hit.score.GetOr(0.0)
  {
    var text := SourceOf(hit).text;
    var excerpt := Take(hit.content.GetOr(""), 300);
    assert text[..|text| - 3] == excerpt;
    assert text[|text| - 3..] == "...";
  }

  /** The block that presents the `index`-th hit (numbered from 1) in the prompt context. */
  function SourceBlock(index: nat, hit: SearchHit): (b: string)
    ensures StartsWith(b, "[Source " + NatToString(index) + "] ")
  {
    var head := "[Source " + NatToString(index) + "] ";
    var b := head + hit.title.GetOr("N/A") + "\nRéférence: " + hit.breadcrumb.GetOr("")
             + "\nContenu: " + hit.content.GetOr("N/A") + "\n";
    assert b[..|head|] == head;
    b
  }

  function SourceBlocks(hits: seq<SearchHit>): (bs: seq<string>)
    ensures |bs| == |hits|
    ensures forall i :: 0 <= i < |bs| ==> bs[i] == SourceBlock(i + 1, hits[i])
  {
    seq(|hits|, i requires 0 <= i < |hits| => SourceBlock(i + 1, hits[i]))
  }

  /** The sources a search gives: one per hit, in order; none when the search fails. */
  function SourcesOf(search: Result<seq<SearchHit>, string>): (sources: seq<Source>)
    ensures search.Err? ==> sources == []
    ensures search.Ok? ==> |sources| == |search.value|
    ensures search.Ok? ==> forall i :: 0 <= i < |sources| ==> sources[i] == SourceOf(search.value[i])
  {
    match search
    case Err(_) => []
    case Ok(hits) => seq(|hits|, i requires 0 <= i < |hits| => SourceOf(hits[i]))
  }

  /** The prompt context: the blocks joined by newlines; empty exactly when there is no hit. */
  function ContextOf(search: Result<seq<SearchHit>, string>): (context: string)
    ensures context == "" <==> search.Err? || search.value == []
  {
    match search
    case Err(_) => ""
    case Ok(hits) =>
      var blocks := SourceBlocks(hits);
      if blocks == [] then ""
      else
        assert blocks[0] != [] by { assert StartsWith(blocks[0], "[Source " + NatToString(1) + "] "); }
        assert |Join(blocks, "\n")| >= |blocks[0]|;
        Join(blocks, "\n")
  }

  lemma SourcesSnoc(hits: seq<SearchHit>, i: nat)
    requires i < |hits|
    ensures SourcesOf(Ok(hits[..i + 1])) == SourcesOf(Ok(hits[..i])) + [SourceOf(hits[i])]
    ensures SourceBlocks(hits[..i + 1]) == SourceBlocks(hits[..i]) + [SourceBlock(i + 1, hits[i])]
  {
    SourcesOfSnoc(hits, i);
    SourceBlocksSnoc(hits, i);
  }

  lemma SourcesOfSnoc(hits: seq<SearchHit>, i: nat)
    requires i < |hits|
    ensures SourcesOf(Ok(hits[..i + 1])) == SourcesOf(Ok(hits[..i])) + [SourceOf(hits[i])]
  {
    var l := SourcesOf(Ok(hits[..i + 1]));
    var r := SourcesOf(Ok(hits[..i])) + [SourceOf(hits[i])];
    assert |l| == |r|;
    forall k | 0 <= k < |l|
      ensures l[k] == r[k]
    {
      if k < i {
        assert hits[..i + 1][k] == hits[..i][k];
      }
    }
  }

  lemma SourceBlocksSnoc(hits: seq<SearchHit>, i: nat)
    requires i < |hits|
    ensures SourceBlocks(hits[..i + 1]) == SourceBlocks(hits[..i]) + [SourceBlock(i + 1, hits[i])]
  {
    var l := SourceBlocks(hits[..i + 1]);
    var r := SourceBlocks(hits[..i]) + [SourceBlock(i + 1, hits[i])];
    assert |l| == |r|;
    forall k | 0 <= k < |l|
      ensures l[k] == r[k]
    {
      if k < i {
        assert hits[..i + 1][k] == hits[..i][k];
      }
    }
  }

  /** `_retrieve_sources`: one pass over the hits, building the sources and the context
      blocks side by side. */
  method RetrieveSources(search: Result<seq<SearchHit>, string>) returns (sources: seq<Source>, context: string)
    ensures sources == SourcesOf(search)
    ensures context == ContextOf(search)
  {
    if search.Err? {
      return [], "";
    }
    var hits := search.value;
    sources := [];
    var parts: seq<string> := [];
    var i := 0;
    while i < |hits|
      invariant 0 <= i <= |hits|
      invariant sources == SourcesOf(Ok(hits[..i]))
      invariant parts == SourceBlocks(hits[..i])
    {
      SourcesSnoc(hits, i);
      sources := sources + [SourceOf(hits[i])];
      parts := parts + [SourceBlock(i + 1, hits[i])];
      i := i + 1;
    }
    assert hits[..i] == hits;
    context := if parts == [] then "" else Join(parts, "\n");
  }

  // ---------------------------------------------------------------------------
  // Answer generation
  // ---------------------------------------------------------------------------

  const NoModelMessage := "Le modèle d'IA n'est pas disponible. Veuillez configurer les credentials Google Cloud."
  const UnavailableMessage := "\U{26A0}\U{FE0F} Le service de génération de réponse est temporairement indisponible. Cependant, j'ai trouvé des sources pertinentes ci-dessus."
  const CannotFormatMessage := "Sources trouvées mais impossible de les formater."
  const SourcesHeader := "SOURCES JURIDIQUES DISPONIBLES"
  const SourcesMarker := "SOURCES JURIDIQUES DISPONIBLES:"
  const QuestionMarker := "QUESTION ACTUELLE:"
  const SourceTag := "[Source"
  const FallbackIntro := "Voici ce que j'ai trouvé dans les sources juridiques ("
  const FallbackNote := "\n\n\U{26A0}\U{FE0F} Note : Le service de génération automatique est temporairement indisponible. \nLes sources ci-dessus contiennent les informations pertinentes pour répondre à votre question.\nVeuillez consulter les articles mentionnés pour plus de détails."

  /** The reply admits it does not know or that its sources fall short. */
  predicate Hedges(reply: string) {
    Contains(Lower(reply), "je ne sais pas") || Contains(Lower(reply), "insuffisant")
  }

  /** The reply speaks of both sources and articles. */
  predicate CitesSources(reply: string) {
    Contains(Lower(reply), "sources") && Contains(Lower(reply), "article")
  }

  /** The confidence given to a generated reply: hedging wins over citing. */
  function ReplyConfidence(reply: string): (c: real)
    ensures ValidConfidence(c)
    ensures Hedges(reply) ==> c == 0.4
    ensures !Hedges(reply) && CitesSources(reply) ==> c == 0.95
    ensures !Hedges(reply) && !CitesSources(reply) ==> c == 0.85
  {
    if Hedges(reply) then 0.4 else if CitesSources(reply) then 0.95 else 0.85
  }

  /** The text after the first `open` marker, up to the next `close` (or `open`) marker,
      stripped: `s.split(open)[1].split(close)[0].strip()`. */
  function Between(s: string, open: string, close: string): (section: string)
    requires open != [] && close != [] && Contains(s, open)
  {
    Strip(SplitOn(SplitOn(s, open)[1], close)[0])
  }

  /** The text `Between` returns runs into neither marker. */
  lemma BetweenBounds(s: string, open: string, close: string)
    requires open != [] && close != [] && Contains(s, open)
    ensures !Contains(Between(s, open, close), close)
    ensures !Contains(Between(s, open, close), open)
  {
    SecondPieceClean(s, open);
    FirstPieceClean(SplitOn(s, open)[1], open, close);
  }

  /** The piece after the first `open` holds no `open`. */
  lemma SecondPieceClean(s: string, open: string)
    requires open != [] && Contains(s, open)
    ensures !Contains(SplitOn(s, open)[1], open)
  {
    var k := Find(s, open);
    var rest := s[k + |open|..];
    assert SplitOn(s, open) == [s[..k]] + SplitOn(rest, open);
    assert SplitOn(s, open)[1] == SplitOn(rest, open)[0];
    SplitOnFirstPiece(rest, open);
  }

  /** The stripped piece of `t` before its first `close` holds no `close`, nor an `open`
      when `t` holds none. */
  lemma FirstPieceClean(t: string, open: string, close: string)
    requires open != [] && close != [] && !Contains(t, open)
    ensures !Contains(Strip(SplitOn(t, close)[0]), close)
    ensures !Contains(Strip(SplitOn(t, close)[0]), open)
  {
    var beforeClose := SplitOn(t, close)[0];
    SplitOnFirstPiece(t, close);
    NotContainsSlice(t, open, 0, |beforeClose|);
    assert t[0..|beforeClose|] == beforeClose;
    StripKeepsAbsence(beforeClose, open);
    StripKeepsAbsence(beforeClose, close);
  }

  /** The sources section of a prompt: what follows the first sources header, up to the
      question. */
  function SourcesSection(prompt: string): (section: string)
    requires Contains(prompt, SourcesMarker)
  {
    Between(prompt, SourcesMarker, QuestionMarker)
  }

  /** The section the fallback shows runs into neither the question nor a second header. */
  lemma SourcesSectionBounds(prompt: string)
    requires Contains(prompt, SourcesMarker)
    ensures !Contains(SourcesSection(prompt), QuestionMarker)
    ensures !Contains(SourcesSection(prompt), SourcesMarker)
  {
    BetweenBounds(prompt, SourcesMarker, QuestionMarker);
  }

  /** `_generate_fallback_from_sources`: announces how many "[Source" tags the sources
      section holds and shows its first 800 characters. */
  function FallbackFromSources(prompt: string): (r: string)
    ensures !Contains(prompt, SourcesMarker) ==> r == CannotFormatMessage
    ensures Contains(prompt, SourcesMarker) ==>
      StartsWith(r, FallbackIntro + NatToString(CountOccurrences(SourcesSection(prompt), SourceTag)) + " sources) :\n\n")
    ensures Contains(prompt, SourcesMarker) ==> EndsWith(r, Take(SourcesSection(prompt), 800) + FallbackNote)
  {
    if !Contains(prompt, SourcesMarker) then CannotFormatMessage
    else
      var section := SourcesSection(prompt);
      var head := FallbackIntro + NatToString(CountOccurrences(section, SourceTag)) + " sources) :\n\n";
      var tail := Take(section, 800) + FallbackNote;
      var r := head + tail;
      assert r[..|head|] == head && r[|r| - |tail|..] == tail;
      r
  }

  /** `_generate_response`: the answer and its confidence. Without a model the answer is a
      fixed notice with confidence 0; a generated reply is scored by `ReplyConfidence`; when
      generation fails, a prompt carrying a sources section yields the fallback built from
      it (0.6), any other prompt a fixed apology (0.3). */
  function GenerateResponse(prompt: string, modelAvailable: bool, reply: Generation): (r: (string, real))
    ensures ValidConfidence(r.1)
    ensures r.1 == 0.0 <==> !modelAvailable
    ensures !modelAvailable ==> r.0 == NoModelMessage
    ensures modelAvailable && reply.Generated? ==> r == (reply.text, ReplyConfidence(reply.text))
    ensures modelAvailable && !reply.Generated? ==> (r.1 == 0.6 <==> Contains(prompt, "SOURCE") && Contains(prompt, SourcesHeader))
    ensures modelAvailable && !reply.Generated? && r.1 == 0.6 ==> r.0 == FallbackFromSources(prompt)
    ensures modelAvailable && !reply.Generated? && r.1 != 0.6 ==> r == (UnavailableMessage, 0.3)
  {
    if !modelAvailable then (NoModelMessage, 0.0)
    else match reply
      case Generated(text) => (text, ReplyConfidence(text))
      case _ =>
        if Contains(prompt, "SOURCE") && Contains(prompt, SourcesHeader) then (FallbackFromSources(prompt), 0.6)
        else (UnavailableMessage, 0.3)
  }

  // ---------------------------------------------------------------------------
  // Suggestions
  // ---------------------------------------------------------------------------

  const ContractSuggestions := ["\U{1F50D} Rechercher la jurisprudence sur les contrats", "\U{1F4C4} Générer un modèle de contrat"]
  const ProcedureSuggestions := ["\U{1F4CA} Analyser la stratégie procédurale", "\U{1F50D} Rechercher des cas similaires"]
  const ConformitySuggestion := "\U{2705} Auditer un document pour conformité"
  const DefaultSuggestions := ["\U{1F50D} Approfondir cette recherche", "\U{1F4AC} Poser une question connexe"]

  predicate MentionsContract(question: string, response: string) {
    Contains(Lower(question), "contrat") || Contains(Lower(response), "contrat")
  }

  predicate MentionsProcedure(question: string) {
    var q := Lower(question);
    Contains(q, "procédure") || Contains(q, "jugement") || Contains(q, "tribunal")
  }

  predicate MentionsConformity(question: string) {
    var q := Lower(question);
    Contains(q, "conformité") || Contains(q, "vérifier") || Contains(q, "valide")
  }

  /**
   * The suggested actions, case by case: contract talk (in the question or the answer)
   * comes first with its two actions, procedure talk next with two, conformity last with
   * one; at most three are kept, and when nothing matches the two general ones are given.
   */
  predicate SuggestionRules(question: string, response: string, r: seq<string>) {
    var c := MentionsContract(question, response);
    var p := MentionsProcedure(question);
    var k := MentionsConformity(question);
    if c && p then r == ContractSuggestions + [ProcedureSuggestions[0]]
    else if c && k then r == ContractSuggestions + [ConformitySuggestion]
    else if c then r == ContractSuggestions
    else if p && k then r == ProcedureSuggestions + [ConformitySuggestion]
    else if p then r == ProcedureSuggestions
    else if k then r == [ConformitySuggestion]
    else r == DefaultSuggestions
  }

  /** The rules fix the suggestions completely, and there are one to three of them. */
  lemma SuggestionRulesDetermine(question: string, response: string, r1: seq<string>, r2: seq<string>)
    requires SuggestionRules(question, response, r1) && SuggestionRules(question, response, r2)
    ensures r1 == r2
    ensures 1 <= |r1| <= 3
  {
  }

  /** `_generate_suggestions`: appends the actions of each matching topic, falls back to
      the general ones, and keeps the first three. */
  method GenerateSuggestions(question: string, response: string) returns (suggestions: seq<string>)
    ensures SuggestionRules(question, response, suggestions)
    ensures 1 <= |suggestions| <= 3
  {
    var all: seq<string> := [];
    if MentionsContract(question, response) {
      all := all + ContractSuggestions;
    }
    if MentionsProcedure(question) {
      all := all + ProcedureSuggestions;
    }
    if MentionsConformity(question) {
      all := all + [ConformitySuggestion];
    }
    if all == [] {
      all := DefaultSuggestions;
    }
    suggestions := Take(all, 3);
  }

  // ---------------------------------------------------------------------------
  // Chat
  // ---------------------------------------------------------------------------

  /**
   * `chat`: picks the conversation (the request's id when it is truthy, else a new one
   * under `freshId`), appends the user's message, retrieves sources when asked, reads the
   * 5-message window that ends with that message, generates the answer, appends it, and
   * suggests actions. The conversation gains exactly the two messages, user first.
   */
  method Chat(manager: ConversationManager, request: ChatRequest, freshId: string,
              search: (string, int) -> Result<seq<SearchHit>, string>,
              buildPrompt: (string, string, seq<ChatMessage>) -> string,
              modelAvailable: bool, generate: string -> Generation)
    returns (resp: ChatResponse, ghost window: seq<ChatMessage>, ghost before: seq<ChatMessage>)
    modifies manager
    ensures resp.conversationId == if Truthy(request.conversationId) then request.conversationId.value else freshId
    ensures before == if Truthy(request.conversationId) then old(manager.History(resp.conversationId)) else []
    ensures manager.conversations ==
              old(manager.conversations)[resp.conversationId := before + [ChatMessage("user", request.message), ChatMessage("assistant", resp.response)]]
    ensures window == LastMessages(before + [ChatMessage("user", request.message)], 5)
    ensures window != [] && window[|window| - 1] == ChatMessage("user", request.message) && |window| <= 5
    ensures Responds(request, window, search, buildPrompt, modelAvailable, generate, resp)
  {
    ghost var c0 := manager.conversations;
    var user := ChatMessage("user", request.message);
    var convId, history;
    convId, history, before := OpenTurn(manager, request, freshId);
    window := history;
    ghost var c1 := manager.conversations;
    resp := CloseTurn(manager, request, history, convId, search, buildPrompt, modelAvailable, generate);
    ghost var assistant := ChatMessage("assistant", resp.response);
    assert c1[convId] == before + [user];
    AppendTwo(before, user, assistant);
    UpdateTwice(c0, convId, before + [user], before + [user, assistant]);
  }

  /** The second half of `chat`: answers from the window and appends the answer to the
      conversation. */
  method CloseTurn(manager: ConversationManager, request: ChatRequest, window: seq<ChatMessage>,
                   convId: string,
                   search: (string, int) -> Result<seq<SearchHit>, string>,
                   buildPrompt: (string, string, seq<ChatMessage>) -> string,
                   modelAvailable: bool, generate: string -> Generation)
    returns (resp: ChatResponse)
    modifies manager
    ensures resp.conversationId == convId
    ensures manager.conversations ==
              old(manager.conversations)[convId := old(manager.History(convId)) + [ChatMessage("assistant", resp.response)]]
    ensures Responds(request, window, search, buildPrompt, modelAvailable, generate, resp)
  {
    resp := Respond(request, window, convId, search, buildPrompt, modelAvailable, generate);
    manager.AddMessage(convId, "assistant", resp.response);
  }

  /** The first half of `chat`: picks or creates the conversation, appends the user's
      message and reads the 5-message window that ends with it. */
  method OpenTurn(manager: ConversationManager, request: ChatRequest, freshId: string)
    returns (convId: string, history: seq<ChatMessage>, ghost before: seq<ChatMessage>)
    modifies manager
    ensures convId == if Truthy(request.conversationId) then request.conversationId.value else freshId
    ensures Truthy(request.conversationId) ==> before == old(manager.History(convId))
    ensures !Truthy(request.conversationId) ==> before == []
    ensures manager.conversations ==
              old(manager.conversations)[convId := before + [ChatMessage("user", request.message)]]
    ensures history == LastMessages(before + [ChatMessage("user", request.message)], 5)
    ensures history != [] && history[|history| - 1] == ChatMessage("user", request.message)
    ensures |history| <= 5
  {
    ghost var c0 := manager.conversations;
    var user := ChatMessage("user", request.message);
    if Truthy(request.conversationId) {
      convId := request.conversationId.value;
      before := manager.History(convId);
    } else {
      convId := manager.CreateConversation(freshId);
      before := [];
      UpdateTwice(c0, convId, [], before + [user]);
    }
    ghost var c1 := manager.conversations;
    assert manager.History(convId) == before;
    assert c1[convId := before + [user]] == c0[convId := before + [user]];
    manager.AddMessage(convId, "user", request.message);
    assert manager.conversations == c1[convId := before + [user]];
    history := manager.GetHistory(convId, 5);
    assert manager.conversations[convId] == before + [user];
    WindowEndsWithLatest(before, user, 5);
  }

  lemma AppendTwo<T>(s: seq<T>, a: T, b: T)
    ensures s + [a] + [b] == s + [a, b]
  {
  }

  /** Updating the same key twice keeps the second value. */
  lemma UpdateTwice<K, V>(m: map<K, V>, k: K, v1: V, v2: V)
    ensures m[k := v1][k := v2] == m[k := v2]
  {
  }

  /** What `chat` answers, given the window it read: the sources when asked (none
      otherwise), the answer and confidence `GenerateResponse` gives for the prompt built
      from the question, the context and the window, and the suggestions the rules fix. */
  predicate Responds(request: ChatRequest, window: seq<ChatMessage>,
                     search: (string, int) -> Result<seq<SearchHit>, string>,
                     buildPrompt: (string, string, seq<ChatMessage>) -> string,
                     modelAvailable: bool, generate: string -> Generation,
                     resp: ChatResponse)
  {
    var context := if request.useRag then ContextOf(search(request.message, request.maxSources)) else "";
    var prompt := buildPrompt(request.message, context, window);
    && resp.sources == (if request.useRag then SourcesOf(search(request.message, request.maxSources)) else [])
    && (resp.response, resp.confidence) == GenerateResponse(prompt, modelAvailable, generate(prompt))
    && SuggestionRules(request.message, resp.response, resp.suggestedActions)
  }

  /** The part of `chat` that does not touch the conversations: the response it sends for
      conversation `conversationId`. */
  method Respond(request: ChatRequest, window: seq<ChatMessage>, conversationId: string,
                 search: (string, int) -> Result<seq<SearchHit>, string>,
                 buildPrompt: (string, string, seq<ChatMessage>) -> string,
                 modelAvailable: bool, generate: string -> Generation)
    returns (resp: ChatResponse)
    ensures Responds(request, window, search, buildPrompt, modelAvailable, generate, resp)
    ensures resp.conversationId == conversationId
    ensures ValidConfidence(resp.confidence)
    ensures 1 <= |resp.suggestedActions| <= 3
  {
    var sources := [];
    var context := "";
    if request.useRag {
      sources, context := RetrieveSources(search(request.message, request.maxSources));
    }
    var prompt := buildPrompt(request.message, context, window);
    var r := GenerateResponse(prompt, modelAvailable, generate(prompt));
    var suggested := GenerateSuggestions(request.message, r.0);
    resp := ChatResponse(r.0, sources, conversationId, suggested, r.1);
  }
}
