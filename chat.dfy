/** The assistant chat (ChatScreen): the message log, the input and typing flags,
    the flow picker and its filter, and the per-message actions. The reply delay
    is modelled by splitting a send into `SendMessage` and `DeliverReply`; the
    random choice among the general replies and the message ids and timestamps
    are parameters. */
module Chat {
  import opened Model
  import opened Text
  import opened Lists

  datatype Sender = FromUser | FromAssistant

  /** A log entry; `actions` is empty where the message has none. */
  datatype Message = Message(
    id: string,
    sender: Sender,
    content: string,
    timestamp: int,
    flowUsed: Option<string>,
    actions: seq<string>)

  /** A flow offered in the sidebar. */
  datatype ChatFlow = ChatFlow(
    id: string,
    name: string,
    description: string,
    category: string,
    prompt: string,
    variables: seq<string>,
    usageCount: int,
    isPersonal: Option<bool>)

  const GreetingId: string := "1"
  const AllCategories: string := "all"
  const UseFlowPrefix: string := "Utiliser "
  const UseFlowSuffix: string := ": "
  const Undefined: string := "undefined"
  const CopyAction: string := "copy"
  const SaveAction: string := "save"
  const ExportAction: string := "export"
  const SavedNotice: string := "Message sauvegardé dans vos modèles !"
  const ExportNotice: string := "Export PDF en cours..."
  const GeneralReplyCount: nat := 3

  const GreetingHead: string := "Bonjour "
  const GreetingMiddle: string := " ! 👋\n\nJe suis votre assistant IA personnel Promptly, spécialisé en **"
  const GreetingTail: string := "**.\n\n✨ **Mes capacités :**\n• Conversation naturelle adaptée à votre métier\n• Commande vocale intelligente\n• Accès à vos Promptly Flows personnalisés\n• Exécution automatique de vos workflows\n\n🚀 **Pour commencer :**\nSélectionnez un Flow dans la sidebar ou décrivez-moi simplement votre besoin !\n\nComment puis-je vous accompagner aujourd'hui ?"
  const FlowReplyHead: string := "✨ **"
  const FlowReplyMiddle: string := "** exécuté avec succès !\n\nBasé sur votre demande \""
  const FlowReplyTail: string := "\", voici le résultat généré :\n\n---\n\n**📧 Email de réponse à candidature**\n\n**Objet :** Réponse à votre candidature - Poste de Graphiste\n\nBonjour Alice Dupont,\n\nJe vous remercie pour l'intérêt que vous portez à notre entreprise et pour votre candidature au poste de **Graphiste**.\n\nSuite à notre entretien du **14 juin**, nous avons été impressionnés par votre profil et vos compétences créatives. Cependant, après mûre réflexion, nous avons décidé de poursuivre avec un autre candidat dont le profil correspond davantage à nos besoins actuels.\n\nNous conservons votre candidature dans notre base de données et n'hésiterons pas à vous recontacter si un poste correspondant à votre profil se libère.\n\nJe vous souhaite plein succès dans vos recherches.\n\n**Cordialement,**\n[Votre nom]\nService Ressources Humaines\n\n---\n\n✅ **Actions disponibles :** Copier, Exporter PDF, Sauvegarder comme modèle, Partager"
  const AnalysisHead: string := "Je comprends parfaitement votre demande concernant \""
  const AnalysisMiddle: string := "\". \n\n🎯 **Analyse de votre besoin :**\nPour cette tâche spécifique à votre métier de "
  const AnalysisTail: string := ", je vous recommande d'utiliser le **Flow \"Réponse Candidature Pro\"** qui est parfaitement adapté.\n\n🚀 **Workflow suggéré :**\n1. **Sélectionnez** le Flow recommandé dans la sidebar\n2. **Renseignez** les informations du candidat\n3. **Laissez-moi** générer le contenu professionnel\n4. **Personnalisez** si nécessaire\n\nSouhaitez-vous que je lance ce Flow pour vous ?"
  const OptionsHead: string := "Excellente question ! Pour \""
  const OptionsMiddle: string := "\", voici mon analyse :\n\n💡 **Solutions Promptly disponibles :**\n• **Flow spécialisé** de votre bibliothèque métier\n• **Création** d'un nouveau Flow personnalisé\n• **Adaptation** d'un modèle existant\n• **Workflow hybride** combinant plusieurs Flows\n\n🎨 **Recommandation personnalisée :**\nBasé sur votre profil "
  const OptionsTail: string := ", je suggère une approche en 3 étapes...\n\nQuelle option préférez-vous explorer ?"
  const ProcessingHead: string := "Parfait ! Je traite votre demande \""
  const ProcessingMiddle: string := "\" avec l'expertise "
  const ProcessingSecond: string := ".\n\n⚡ **Traitement intelligent en cours...**\n\n🧠 **Analyse contextuelle :**\n• Métier détecté : "
  const ProcessingTail: string := "\n• Type de tâche : Communication professionnelle\n• Niveau de formalisme : Élevé\n• Urgence : Standard\n\n📋 **Contenu généré :**\n[Résultat personnalisé et structuré pour votre demande spécifique]\n\n✨ **Optimisations suggérées :**\n• Ton adapté à votre secteur\n• Terminologie métier appropriée\n• Structure professionnelle\n\nCela correspond-il à vos attentes ?"

  /** The greeting that opens the log, addressed by first name. */
  function Greeting(user: User): string {
    GreetingHead + FirstWord(user.name) + GreetingMiddle + user.profession + GreetingTail
  }

  function FlowId(f: ChatFlow): string {
    f.id
  }

  /** `flows.find(f => f.id === id)`. */
  function FindFlow(flows: seq<ChatFlow>, id: string): (r: Option<ChatFlow>)
    ensures r.None? <==> forall i :: 0 <= i < |flows| ==> flows[i].id != id
    ensures r.Some? ==> exists i :: (0 <= i < |flows| && flows[i] == r.value && r.value.id == id
                                     && forall j :: 0 <= j < i ==> flows[j].id != id)
  {
    if id in KeysOf(flows, FlowId) then
      var i := FirstIndexOfKey(flows, FlowId, id);
      Some(flows[i])
    else
      assert forall i :: 0 <= i < |flows| ==> KeysOf(flows, FlowId)[i] == flows[i].id;
      None
  }

  /** `${flow?.name}`: the name, or the text "undefined" for an unknown id. */
  function FlowNameText(flows: seq<ChatFlow>, id: string): (t: string)
    ensures FindFlow(flows, id).Some? ==> t == FindFlow(flows, id).value.name
    ensures FindFlow(flows, id).None? ==> t == Undefined
  {
    match FindFlow(flows, id)
    case Some(f) => f.name
    case None => Undefined
  }

  /** The reply a selected flow produces, quoting its name and the request. */
  function FlowReply(flows: seq<ChatFlow>, id: string, input: string): string {
    FlowReplyHead + FlowNameText(flows, id) + FlowReplyMiddle + input + FlowReplyTail
  }

  /** The general replies, `choice` standing for the random pick. */
  function GeneralReply(choice: nat, input: string, profession: string): string
    requires choice < GeneralReplyCount
  {
    if choice == 0 then AnalysisHead + input + (AnalysisMiddle + profession + AnalysisTail)
    else if choice == 1 then OptionsHead + input + (OptionsMiddle + profession + OptionsTail)
    else ProcessingHead + input + (ProcessingMiddle + profession + ProcessingSecond + profession + ProcessingTail)
  }

  /** `generateAIResponse`: the flow reply when a flow is selected, else a general one. */
  function ReplyContent(flows: seq<ChatFlow>, selected: Option<string>, input: string,
                        profession: string, choice: nat): (c: string)
    requires choice < GeneralReplyCount
    ensures Truthy(selected) ==> c == FlowReply(flows, selected.value, input)
    ensures !Truthy(selected) ==> c == GeneralReply(choice, input, profession)
  {
    if Truthy(selected) then FlowReply(flows, selected.value, input)
    else GeneralReply(choice, input, profession)
  }

  /** A text built around a quoted part contains that part. */
  lemma QuotedBetween(head: string, quoted: string, rest: string)
    ensures Contains(head + quoted + rest, quoted)
  {
    assert (head + quoted + rest)[|head|..|head| + |quoted|] == quoted;
    assert OccursAt(head + quoted + rest, quoted, |head|);
  }

  /** Every reply quotes the request it answers. */
  lemma ReplyQuotesInput(flows: seq<ChatFlow>, selected: Option<string>, input: string,
                         profession: string, choice: nat)
    requires choice < GeneralReplyCount
    ensures Contains(ReplyContent(flows, selected, input, profession, choice), input)
  {
    if Truthy(selected) {
      QuotedBetween(FlowReplyHead + FlowNameText(flows, selected.value) + FlowReplyMiddle, input, FlowReplyTail);
    } else if choice == 0 {
      QuotedBetween(AnalysisHead, input, AnalysisMiddle + profession + AnalysisTail);
    } else if choice == 1 {
      QuotedBetween(OptionsHead, input, OptionsMiddle + profession + OptionsTail);
    } else {
      QuotedBetween(ProcessingHead, input,
                    ProcessingMiddle + profession + ProcessingSecond + profession + ProcessingTail);
    }
  }

  /** The reply's `flowUsed`: the selected flow's name, when one is selected and known. */
  function FlowUsed(flows: seq<ChatFlow>, selected: Option<string>): (r: Option<string>)
    ensures !Truthy(selected) ==> r.None?
    ensures Truthy(selected) && FindFlow(flows, selected.value).Some? ==>
      r == Some(FindFlow(flows, selected.value).value.name)
    ensures Truthy(selected) && FindFlow(flows, selected.value).None? ==> r.None?
  {
    if !Truthy(selected) then None
    else match FindFlow(flows, selected.value)
      case Some(f) => Some(f.name)
      case None => None
  }

  /** The flow filter: name or description contains the search, ignoring case,
      and the category matches unless it is `all`. */
  predicate FlowMatches(f: ChatFlow, search: string, category: string) {
    (MatchesIgnoringCase(f.name, search) || MatchesIgnoringCase(f.description, search))
    && (category == AllCategories || f.category == category)
  }

  function FilteredFlows(flows: seq<ChatFlow>, search: string, category: string): seq<ChatFlow> {
    Filter(flows, f => FlowMatches(f, search, category))
  }

  /** The filtered flows are the flows that match, in catalogue order; with no
      search and every category, all of them. */
  lemma FilteredFlowsSpec(flows: seq<ChatFlow>, search: string, category: string)
    ensures IsSubsequence(FilteredFlows(flows, search, category), flows)
    ensures forall f :: f in FilteredFlows(flows, search, category) <==> f in flows && FlowMatches(f, search, category)
    ensures forall f :: multiset(FilteredFlows(flows, search, category))[f] ==
               if FlowMatches(f, search, category) then multiset(flows)[f] else 0
    ensures search == "" && category == AllCategories ==> FilteredFlows(flows, search, category) == flows
  {
    FilterSpec(flows, f => FlowMatches(f, search, category));
    if search == "" && category == AllCategories {
      forall i | 0 <= i < |flows| ensures FlowMatches(flows[i], search, category) {
        EmptySearchMatches(flows[i].name);
      }
      FilterAll(flows, f => FlowMatches(f, search, category));
    }
  }

  /** What the reply timer captured when the message was sent: the handler's
      closure reads the input and the selected flow as they were then. */
  datatype PendingReply = PendingReply(input: string, selected: Option<string>)

  /** The visible effect of a message action. */
  datatype ActionEffect = NoEffect | CopyText(text: string) | Notice(text: string)

  class ChatSession {
    const user: User
    const flows: seq<ChatFlow>
    /** The opening message, addressed to the user by first name. */
    const greeting: Message
    var messages: seq<Message>
    var inputText: string
    var isTyping: bool
    var selectedFlow: Option<string>
    var searchFlow: string
    var selectedCategory: string

    /** The log always starts with the greeting it was opened with. */
    predicate Valid()
      reads this
    {
      |messages| >= 1 && messages[0] == greeting
    }

    constructor(user: User, flows: seq<ChatFlow>, now: int)
      ensures Valid()
      ensures this.user == user && this.flows == flows
      ensures greeting == Message(GreetingId, FromAssistant, Greeting(user), now, None, [CopyAction, SaveAction])
      ensures messages == [greeting]
      ensures inputText == "" && !isTyping && selectedFlow.None? && searchFlow == "" && selectedCategory == AllCategories
    {
      this.user := user;
      this.flows := flows;
      greeting := Message(GreetingId, FromAssistant, Greeting(user), now, None, [CopyAction, SaveAction]);
      messages := [greeting];
      inputText := "";
      isTyping := false;
      selectedFlow := None;
      searchFlow := "";
      selectedCategory := AllCategories;
    }

    method SetInput(text: string)
      requires Valid()
      modifies this
      ensures Valid() && inputText == text
      ensures messages == old(messages) && isTyping == old(isTyping) && selectedFlow == old(selectedFlow)
      ensures searchFlow == old(searchFlow) && selectedCategory == old(selectedCategory)
    {
      inputText := text;
    }

    method SetFilter(search: string, category: string)
      requires Valid()
      modifies this
      ensures Valid() && searchFlow == search && selectedCategory == category
      ensures messages == old(messages) && inputText == old(inputText) && isTyping == old(isTyping)
      ensures selectedFlow == old(selectedFlow)
    {
      searchFlow := search;
      selectedCategory := category;
    }

    /** `handleSendMessage` up to its timer: blank input does nothing; otherwise the
        user's message is appended, the input cleared and the typing flag raised. */
    method SendMessage(stamp: string, now: int) returns (pending: Option<PendingReply>)
      requires Valid()
      modifies this
      ensures Valid()
      ensures IsBlank(old(inputText)) ==>
        (pending.None? && messages == old(messages) && inputText == old(inputText) && isTyping == old(isTyping))
      ensures !IsBlank(old(inputText)) ==>
        (pending == Some(PendingReply(old(inputText), selectedFlow))
         && messages == old(messages) + [Message(stamp, FromUser, old(inputText), now, None, [])]
         && inputText == "" && isTyping && !ShowSuggestions())
      ensures selectedFlow == old(selectedFlow) && searchFlow == old(searchFlow)
      ensures selectedCategory == old(selectedCategory)
    {
      if Trim(inputText) == [] {
        return None;
      }
      pending := Some(PendingReply(inputText, selectedFlow));
      messages := messages + [Message(stamp, FromUser, inputText, now, None, [])];
      inputText := "";
      isTyping := true;
    }

    /** `handleSendMessage`'s timer: one assistant message is appended, answering
        the captured input with the captured flow, and the typing flag goes down. */
    method DeliverReply(pending: PendingReply, choice: nat, stamp: string, now: int)
      requires Valid() && choice < GeneralReplyCount
      modifies this
      ensures Valid()
      ensures messages == old(messages) + [Message(stamp, FromAssistant,
        ReplyContent(flows, pending.selected, pending.input, user.profession, choice), now,
        FlowUsed(flows, pending.selected), [CopyAction, SaveAction, ExportAction])]
      ensures !isTyping
      ensures inputText == old(inputText) && selectedFlow == old(selectedFlow)
      ensures searchFlow == old(searchFlow) && selectedCategory == old(selectedCategory)
    {
      var reply := Message(stamp, FromAssistant,
        ReplyContent(flows, pending.selected, pending.input, user.profession, choice), now,
        FlowUsed(flows, pending.selected), [CopyAction, SaveAction, ExportAction]);
      messages := messages + [reply];
      isTyping := false;
    }

    /** `handleFlowSelect`: the flow is selected and the input prefilled with its name. */
    method SelectFlow(id: string)
      requires Valid()
      modifies this
      ensures Valid()
      ensures selectedFlow == Some(id) && inputText == UseFlowPrefix + FlowNameText(flows, id) + UseFlowSuffix
      ensures messages == old(messages) && isTyping == old(isTyping)
      ensures searchFlow == old(searchFlow) && selectedCategory == old(selectedCategory)
    {
      selectedFlow := Some(id);
      inputText := UseFlowPrefix + FlowNameText(flows, id) + UseFlowSuffix;
    }

    /** The × button on the flow badge: the selection is dropped and nothing else
        changes, so the general replies and the suggestions become reachable again. */
    method ClearFlow()
      requires Valid()
      modifies this
      ensures Valid() && selectedFlow.None?
      ensures ShowSuggestions() <==> |messages| == 1
      ensures messages == old(messages) && inputText == old(inputText) && isTyping == old(isTyping)
      ensures searchFlow == old(searchFlow) && selectedCategory == old(selectedCategory)
    {
      selectedFlow := None;
    }

    /** The Send button is disabled for blank input or while the assistant types. */
    function SendDisabled(): (d: bool)
      reads this
      ensures d <==> IsBlank(inputText) || isTyping
    {
      Trim(inputText) == [] || isTyping
    }

    /** The input, and the voice button, are disabled while the assistant types. */
    function InputDisabled(): (d: bool)
      reads this
      ensures d <==> isTyping
    {
      isTyping
    }

    /** The quick suggestions are shown only before any message is sent and while
        no flow is selected. */
    function ShowSuggestions(): (s: bool)
      reads this
      ensures s <==> !Truthy(selectedFlow) && |messages| == 1
    {
      !Truthy(selectedFlow) && |messages| == 1
    }

    function MessageId(m: Message): string {
      m.id
    }

    /** `handleMessageAction`: on the first message with that id, `copy` copies its
        text and `save`/`export` show their notice; an unknown id or action does
        nothing. */
    function MessageAction(action: string, id: string): (e: ActionEffect)
      reads this
      ensures (forall i :: 0 <= i < |messages| ==> messages[i].id != id) ==> e == NoEffect
      ensures e.CopyText? ==>
        (action == CopyAction && exists i :: (0 <= i < |messages| && messages[i].id == id && messages[i].content == e.text
                                              && forall j :: 0 <= j < i ==> messages[j].id != id))
      ensures e.Notice? ==> (action == SaveAction && e.text == SavedNotice) || (action == ExportAction && e.text == ExportNotice)
      ensures e.NoEffect? && (exists i :: 0 <= i < |messages| && messages[i].id == id) ==>
        action != CopyAction && action != SaveAction && action != ExportAction
    {
      if id !in KeysOf(messages, MessageId) then
        assert forall i :: 0 <= i < |messages| ==> KeysOf(messages, MessageId)[i] == messages[i].id;
        NoEffect
      else
        var m := messages[FirstIndexOfKey(messages, MessageId, id)];
        if action == CopyAction then CopyText(m.content)
        else if action == SaveAction then Notice(SavedNotice)
        else if action == ExportAction then Notice(ExportNotice)
        else NoEffect
    }
  }
}
