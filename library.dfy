/** The prompt library (LibraryScreen): the combined catalogue of built-in,
    personal and, for PRO users, favourite prompts, kept first by id, and the
    conjunctive filter over it. The three catalogues are parameters. */
module Library {
  import opened Model
  import opened Text
  import opened Lists

  /** The selector value that imposes no restriction. */
  const Everything: string := "all"

  datatype Source = AllSources | PersonalOnly | FavoritesOnly

  /** The filter selections; each is replaced wholesale by its control. */
  datatype LibraryFilter = LibraryFilter(
    search: string,
    profession: string,
    category: string,
    tone: string,
    source: Source)

  /** The initial selections: no search, every value, every source. */
  const NoFilter: LibraryFilter := LibraryFilter("", Everything, Everything, Everything, AllSources)

  /** `favoritedPrompts`: offered to PRO users only. */
  function Favorites(user: User, proFavorites: seq<Prompt>): (r: seq<Prompt>)
    ensures user.isPro ==> r == proFavorites
    ensures !user.isPro ==> r == []
  {
    if user.isPro then proFavorites else []
  }

  function PromptId(p: Prompt): string {
    p.id
  }

  /** `allPrompts`: the three lists in turn, keeping the first prompt of each id. */
  function AllPrompts(base: seq<Prompt>, mine: seq<Prompt>, favorites: seq<Prompt>): seq<Prompt> {
    DedupBy(base + mine + favorites, PromptId)
  }

  /** The combined catalogue has one prompt per id, covers every id of the three
      lists, keeps for each id the first prompt that has it, and lists ids in the
      order they first appear. */
  lemma AllPromptsSpec(base: seq<Prompt>, mine: seq<Prompt>, favorites: seq<Prompt>)
    ensures KeysDistinct(AllPrompts(base, mine, favorites), PromptId)
    ensures forall i :: 0 <= i < |base + mine + favorites| ==>
      (base + mine + favorites)[i].id in KeysOf(AllPrompts(base, mine, favorites), PromptId)
    ensures FirstOfKeys(AllPrompts(base, mine, favorites), base + mine + favorites, PromptId)
    ensures InFirstAppearanceOrder(AllPrompts(base, mine, favorites), base + mine + favorites, PromptId)
    ensures IsSubsequence(AllPrompts(base, mine, favorites), base + mine + favorites)
  {
    var s := base + mine + favorites;
    DedupByDistinctKeys(s, PromptId);
    DedupByCovers(s, PromptId);
    DedupByFirst(s, PromptId);
    DedupByOrdered(s, PromptId);
    DedupBySubsequence(s, PromptId);
  }

  /** Lists whose ids are already distinct are combined unchanged. */
  lemma AllPromptsDistinct(base: seq<Prompt>, mine: seq<Prompt>, favorites: seq<Prompt>)
    requires KeysDistinct(base + mine + favorites, PromptId)
    ensures AllPrompts(base, mine, favorites) == base + mine + favorites
  {
    DedupByDistinct(base + mine + favorites, PromptId);
  }

  /** The search shared by the prompt lists: title or content contains it, ignoring case. */
  predicate SearchMatches(p: Prompt, search: string) {
    MatchesIgnoringCase(p.title, search) || MatchesIgnoringCase(p.content, search)
  }

  predicate SelectorMatches(selected: string, value: string) {
    selected == Everything || value == selected
  }

  /** The source rule: `personal` needs `isPersonal === true`, `favorites` needs
      `isFavorited === true`. */
  predicate SourceMatches(p: Prompt, source: Source) {
    match source
    case AllSources => true
    case PersonalOnly => p.isPersonal == Some(true)
    case FavoritesOnly => p.isFavorited == Some(true)
  }

  predicate Matches(p: Prompt, f: LibraryFilter) {
    SearchMatches(p, f.search) && SelectorMatches(f.profession, p.profession)
    && SelectorMatches(f.category, p.category) && SelectorMatches(f.tone, p.tone)
    && SourceMatches(p, f.source)
  }

  /** `filteredPrompts`. */
  function Filtered(all: seq<Prompt>, f: LibraryFilter): seq<Prompt> {
    Filter(all, p => Matches(p, f))
  }

  /** The filtered list is a subsequence of the catalogue holding exactly the
      prompts that pass all five tests. */
  lemma FilteredSpec(all: seq<Prompt>, f: LibraryFilter)
    ensures IsSubsequence(Filtered(all, f), all)
    ensures forall p :: p in Filtered(all, f) <==>
      p in all && SearchMatches(p, f.search) && SelectorMatches(f.profession, p.profession)
      && SelectorMatches(f.category, p.category) && SelectorMatches(f.tone, p.tone)
      && SourceMatches(p, f.source)
    ensures forall p :: multiset(Filtered(all, f))[p] == if Matches(p, f) then multiset(all)[p] else 0
  {
    FilterSpec(all, p => Matches(p, f));
  }

  /** The initial selections show the whole catalogue. */
  lemma NoFilterShowsAll(all: seq<Prompt>)
    ensures Filtered(all, NoFilter) == all
  {
    forall i | 0 <= i < |all| ensures Matches(all[i], NoFilter) {
      EmptySearchMatches(all[i].title);
    }
    FilterAll(all, p => Matches(p, NoFilter));
  }

  /** A free user who asks for favourites sees nothing when neither the built-in
      nor the personal prompts are marked favourite. */
  lemma FreeUserFavoritesEmpty(user: User, base: seq<Prompt>, mine: seq<Prompt>, proFavorites: seq<Prompt>,
                               f: LibraryFilter)
    requires !user.isPro && f.source == FavoritesOnly
    requires forall i :: 0 <= i < |base + mine| ==> (base + mine)[i].isFavorited != Some(true)
    ensures Filtered(AllPrompts(base, mine, Favorites(user, proFavorites)), f) == []
  {
    var all := AllPrompts(base, mine, Favorites(user, proFavorites));
    assert base + mine + [] == base + mine;
    DedupBySubsequence(base + mine, PromptId);
    FilteredSpec(all, f);
    forall p | p in all ensures !SourceMatches(p, f.source) {
      SubsequenceMembers(all, base + mine, p);
    }
  }
}
