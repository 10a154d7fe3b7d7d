/** The community screen (CommunityScreen): the search and profession filter,
    the stable descending sort on a copy, the PRO gate on likes and favourites,
    and the header figures. The catalogue is a parameter. */
module Community {
  import opened Model
  import opened Text
  import opened Lists

  const Everything: string := "all"
  const ProOnlyNotice: string := "Fonctionnalité réservée aux utilisateurs PRO"

  /** A shared prompt with its community fields. */
  datatype CommunityPrompt = CommunityPrompt(
    prompt: Prompt,
    author: string,
    likes: int,
    comments: int,
    isPremium: Option<bool>,
    isVerified: Option<bool>)

  /** Search over title, content and author, ignoring case, and the profession
      selector with `all` as a wildcard. */
  predicate CommunityMatches(c: CommunityPrompt, search: string, profession: string) {
    (MatchesIgnoringCase(c.prompt.title, search) || MatchesIgnoringCase(c.prompt.content, search)
     || MatchesIgnoringCase(c.author, search))
    && (profession == Everything || c.prompt.profession == profession)
  }

  /** `filteredPrompts`. */
  function Filtered(cs: seq<CommunityPrompt>, search: string, profession: string): seq<CommunityPrompt> {
    Filter(cs, c => CommunityMatches(c, search, profession))
  }

  lemma FilteredSpec(cs: seq<CommunityPrompt>, search: string, profession: string)
    ensures IsSubsequence(Filtered(cs, search, profession), cs)
    ensures forall c :: c in Filtered(cs, search, profession) <==> c in cs && CommunityMatches(c, search, profession)
    ensures forall c :: multiset(Filtered(cs, search, profession))[c] ==
               if CommunityMatches(c, search, profession) then multiset(cs)[c] else 0
    ensures search == "" && profession == Everything ==> Filtered(cs, search, profession) == cs
  {
    FilterSpec(cs, c => CommunityMatches(c, search, profession));
    if search == "" && profession == Everything {
      forall i | 0 <= i < |cs| ensures CommunityMatches(cs[i], search, profession) {
        EmptySearchMatches(cs[i].prompt.title);
      }
      FilterAll(cs, c => CommunityMatches(c, search, profession));
    }
  }

  /** The sort keys, all compared in descending order; a missing rating or usage
      count counts as 0, and an unknown choice compares every pair as equal. */
  function SortKey(sortBy: string): CommunityPrompt -> real {
    if sortBy == "popular" then (c: CommunityPrompt) => c.likes as real
    else if sortBy == "rating" then (c: CommunityPrompt) => c.prompt.rating.GetOr(0.0)
    else if sortBy == "recent" then (c: CommunityPrompt) => c.prompt.createdAt as real
    else if sortBy == "usage" then (c: CommunityPrompt) => c.prompt.usageCount.GetOr(0) as real
    else (c: CommunityPrompt) => 0.0
  }

  predicate KnownSort(sortBy: string) {
    sortBy == "popular" || sortBy == "rating" || sortBy == "recent" || sortBy == "usage"
  }

  /** `sortedPrompts`: a sorted copy of the filtered list. */
  function Sorted(filtered: seq<CommunityPrompt>, sortBy: string): seq<CommunityPrompt> {
    SortDesc(filtered, SortKey(sortBy))
  }

  /** The sorted list is a permutation of the filtered one, in non-increasing key
      order, and prompts with equal keys keep their filtered order. */
  lemma SortedSpec(filtered: seq<CommunityPrompt>, sortBy: string)
    ensures multiset(Sorted(filtered, sortBy)) == multiset(filtered)
    ensures SortedDesc(Sorted(filtered, sortBy), SortKey(sortBy))
    ensures forall k :: WithKey(Sorted(filtered, sortBy), SortKey(sortBy), k) == WithKey(filtered, SortKey(sortBy), k)
  {
    SortDescSpec(filtered, SortKey(sortBy));
  }

  /** Sorting by popularity puts the most liked prompts first. */
  lemma PopularFirst(filtered: seq<CommunityPrompt>)
    ensures forall i, j :: 0 <= i < j < |Sorted(filtered, "popular")| ==>
      Sorted(filtered, "popular")[i].likes >= Sorted(filtered, "popular")[j].likes
  {
    var r := Sorted(filtered, "popular");
    SortedSpec(filtered, "popular");
    forall i, j | 0 <= i < j < |r| ensures r[i].likes >= r[j].likes {
      assert SortKey("popular")(r[i]) >= SortKey("popular")(r[j]);
    }
  }

  /** An unknown sort choice keeps the filtered order. */
  lemma UnknownSortKeepsOrder(filtered: seq<CommunityPrompt>, sortBy: string)
    requires !KnownSort(sortBy)
    ensures Sorted(filtered, sortBy) == filtered
  {
    SortDescConstantKey(filtered, SortKey(sortBy));
  }

  /** `handleLike` and `handleAddToFavorites`: a free user only gets the notice;
      for a PRO user nothing is done yet. */
  function GateNotice(isPro: bool): (notice: Option<string>)
    ensures notice.Some? <==> !isPro
    ensures notice.Some? ==> notice.value == ProOnlyNotice
  {
    if isPro then None else Some(ProOnlyNotice)
  }

  function IsVerifiedPrompt(c: CommunityPrompt): bool {
    IsTrue(c.isVerified)
  }

  /** The verified figure: how many prompts carry the verified mark. */
  function VerifiedCount(cs: seq<CommunityPrompt>): (n: nat)
    ensures n <= |cs|
    ensures n == |cs| <==> forall i :: 0 <= i < |cs| ==> IsTrue(cs[i].isVerified)
  {
    FilterKeepsAll(cs, IsVerifiedPrompt);
    |Filter(cs, IsVerifiedPrompt)|
  }

  /** The positions of the prompts that carry the verified mark. */
  function VerifiedPositions(cs: seq<CommunityPrompt>): set<int> {
    set i | 0 <= i < |cs| && IsTrue(cs[i].isVerified)
  }

  /** The verified figure is exactly the number of prompts with the verified mark. */
  lemma VerifiedCountSpec(cs: seq<CommunityPrompt>)
    ensures VerifiedCount(cs) == |VerifiedPositions(cs)|
  {
    FilterCount(cs, IsVerifiedPrompt);
    assert Positions(cs, IsVerifiedPrompt) == VerifiedPositions(cs);
  }

  /** The verified figure of a catalogue made of two parts adds the parts' figures,
      and a single prompt counts one exactly when it is verified. */
  lemma VerifiedCountAppend(a: seq<CommunityPrompt>, b: seq<CommunityPrompt>)
    ensures VerifiedCount(a + b) == VerifiedCount(a) + VerifiedCount(b)
    ensures forall c :: VerifiedCount([c]) == if IsTrue(c.isVerified) then 1 else 0
  {
    FilterAppend(a, b, IsVerifiedPrompt);
    forall c ensures VerifiedCount([c]) == if IsTrue(c.isVerified) then 1 else 0 {
      assert [c][..0] == [];
    }
  }

  function Likes(c: CommunityPrompt): int {
    c.likes
  }

  function Usage(c: CommunityPrompt): int {
    c.prompt.usageCount.GetOr(0)
  }

  /** The likes figure: the sum of the likes. */
  function TotalLikes(cs: seq<CommunityPrompt>): int {
    Sum(cs, Likes)
  }

  /** The likes figure of a catalogue made of two parts adds the parts' figures. */
  lemma TotalLikesAppend(a: seq<CommunityPrompt>, b: seq<CommunityPrompt>)
    ensures TotalLikes(a + b) == TotalLikes(a) + TotalLikes(b)
  {
    SumAppend(a, b, Likes);
  }

  /** `Math.round(n / 1000)` for an integer `n`: the nearest integer, halves up. */
  function RoundThousands(n: int): (r: int)
    ensures r * 1000 - 500 <= n < r * 1000 + 500
  {
    (n + 500) / 1000
  }

  /** The usage figure, in thousands: the rounded sum of the usage counts. */
  function UsageThousands(cs: seq<CommunityPrompt>): (k: int)
    ensures k * 1000 - 500 <= Sum(cs, Usage) < k * 1000 + 500
  {
    RoundThousands(Sum(cs, Usage))
  }
}
