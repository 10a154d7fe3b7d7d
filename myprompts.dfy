/** The personal prompts screen (MyPromptsScreen): the search over the user's
    prompts and over the execution history, where an execution is found through
    its prompt's title or its own result. Both lists are parameters. */
module MyPrompts {
  import opened Model
  import opened Text
  import opened Lists
  import opened Library

  /** `filteredPrompts`: the library's title-or-content search. */
  function FilteredPrompts(prompts: seq<Prompt>, search: string): seq<Prompt> {
    Filter(prompts, p => SearchMatches(p, search))
  }

  lemma FilteredPromptsSpec(prompts: seq<Prompt>, search: string)
    ensures IsSubsequence(FilteredPrompts(prompts, search), prompts)
    ensures forall p :: p in FilteredPrompts(prompts, search) <==> p in prompts && SearchMatches(p, search)
    ensures forall p :: multiset(FilteredPrompts(prompts, search))[p] ==
               if SearchMatches(p, search) then multiset(prompts)[p] else 0
  {
    FilterSpec(prompts, p => SearchMatches(p, search));
  }

  /** `prompts.find(p => p.id === id)`. */
  function FindPrompt(prompts: seq<Prompt>, id: string): (r: Option<Prompt>)
    ensures r.None? <==> forall i :: 0 <= i < |prompts| ==> prompts[i].id != id
    ensures r.Some? ==> exists i :: (0 <= i < |prompts| && prompts[i] == r.value && r.value.id == id
                                     && forall j :: 0 <= j < i ==> prompts[j].id != id)
  {
    if id in KeysOf(prompts, PromptId) then
      Some(prompts[FirstIndexOfKey(prompts, PromptId, id)])
    else
      assert forall i :: 0 <= i < |prompts| ==> KeysOf(prompts, PromptId)[i] == prompts[i].id;
      None
  }

  /** An execution matches when its prompt's title or its result contains the
      search, ignoring case; without such a prompt only the result counts. */
  predicate HistoryMatches(e: PromptExecution, prompts: seq<Prompt>, search: string) {
    (match FindPrompt(prompts, e.promptId)
     case Some(p) => MatchesIgnoringCase(p.title, search)
     case None => false)
    || MatchesIgnoringCase(e.result, search)
  }

  /** `filteredHistory`. */
  function FilteredHistory(history: seq<PromptExecution>, prompts: seq<Prompt>, search: string): seq<PromptExecution> {
    Filter(history, e => HistoryMatches(e, prompts, search))
  }

  /** The filtered history is a subsequence of the history holding exactly the
      matching executions. */
  lemma FilteredHistorySpec(history: seq<PromptExecution>, prompts: seq<Prompt>, search: string)
    ensures IsSubsequence(FilteredHistory(history, prompts, search), history)
    ensures forall e :: e in FilteredHistory(history, prompts, search) <==>
      e in history && HistoryMatches(e, prompts, search)
    ensures forall e :: multiset(FilteredHistory(history, prompts, search))[e] ==
               if HistoryMatches(e, prompts, search) then multiset(history)[e] else 0
  {
    FilterSpec(history, e => HistoryMatches(e, prompts, search));
  }

  /** An execution of a prompt that is not in the list is found by its result only. */
  lemma OrphanFoundByResult(e: PromptExecution, prompts: seq<Prompt>, search: string)
    requires forall i :: 0 <= i < |prompts| ==> prompts[i].id != e.promptId
    ensures HistoryMatches(e, prompts, search) <==> MatchesIgnoringCase(e.result, search)
  {
  }

  /** An execution of a listed prompt is found by the first such prompt's title too. */
  lemma LinkedFoundByTitle(e: PromptExecution, prompts: seq<Prompt>, search: string, i: nat)
    requires i < |prompts| && prompts[i].id == e.promptId
    requires forall j :: 0 <= j < i ==> prompts[j].id != e.promptId
    requires MatchesIgnoringCase(prompts[i].title, search)
    ensures HistoryMatches(e, prompts, search)
  {
    var r := FindPrompt(prompts, e.promptId);
    var k :| 0 <= k < |prompts| && prompts[k] == r.value && r.value.id == e.promptId
             && forall j :: 0 <= j < k ==> prompts[j].id != e.promptId;
    assert k == i;
  }

  /** An empty search keeps every prompt and every execution. */
  lemma EmptySearchKeepsAll(history: seq<PromptExecution>, prompts: seq<Prompt>)
    ensures FilteredPrompts(prompts, "") == prompts
    ensures FilteredHistory(history, prompts, "") == history
  {
    forall i | 0 <= i < |prompts| ensures SearchMatches(prompts[i], "") {
      EmptySearchMatches(prompts[i].title);
    }
    FilterAll(prompts, p => SearchMatches(p, ""));
    forall i | 0 <= i < |history| ensures HistoryMatches(history[i], prompts, "") {
      EmptySearchMatches(history[i].result);
    }
    FilterAll(history, e => HistoryMatches(e, prompts, ""));
  }
}
