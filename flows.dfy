/** The flows hook (useFlows): the list of flows it holds, the visibility and
    order of the flows query, the guarded creation of a flow, the local usage
    count update and the conversion of flows into prompts. Database calls are
    replaced by their outcomes. */
module Flows {
  import opened Model
  import opened Lists

  const NotLoggedInMessage: string := "User must be logged in to create flows"
  const GenericError: string := "An error occurred"
  const DefaultTone: string := "Professionnel"
  const DefaultRating: real := 4.5

  /** A variable as stored in a flow's JSON column: every field may be missing. */
  datatype FlowVariable = FlowVariable(
    name: string,
    example: Option<string>,
    defaultValue: Option<string>,
    required: Option<bool>)

  /** A row of the `flows` table; `created_at` is already read as milliseconds. */
  datatype Flow = Flow(
    id: string,
    name: string,
    description: string,
    category: string,
    icon_name: string,
    prompt_template: string,
    variables: seq<FlowVariable>,
    usage_count: int,
    is_personal: bool,
    is_public: bool,
    gradient_colors: string,
    bg_gradient_colors: string,
    created_by_user_id: Option<string>,
    created_at: int,
    updated_at: int)

  /** The query's filter: public flows, and with a user also that user's own. */
  predicate Visible(f: Flow, userId: Option<string>) {
    f.is_public || (Truthy(userId) && f.created_by_user_id == userId)
  }

  function UsageKey(f: Flow): real {
    f.usage_count as real
  }

  /** What the flows query returns from `table`: the visible flows, most used first.
      The database does not promise an order among equal counts; the model keeps
      table order for them. */
  function Query(table: seq<Flow>, userId: Option<string>): seq<Flow> {
    SortDesc(Filter(table, VisibleTo(userId)), UsageKey)
  }

  /** `Visible` for a fixed user, as a function value. */
  function VisibleTo(userId: Option<string>): Flow -> bool {
    f => Visible(f, userId)
  }

  /** The query returns exactly the visible flows, as often as the table holds
      them, in non-increasing usage order, and flows with equal counts keep their
      table order. */
  lemma QuerySpec(table: seq<Flow>, userId: Option<string>)
    ensures forall i :: 0 <= i < |Query(table, userId)| ==> Visible(Query(table, userId)[i], userId)
    ensures forall f :: multiset(Query(table, userId))[f] == if Visible(f, userId) then multiset(table)[f] else 0
    ensures forall i, j :: 0 <= i < j < |Query(table, userId)| ==>
      Query(table, userId)[i].usage_count >= Query(table, userId)[j].usage_count
    ensures forall k :: WithKey(Query(table, userId), UsageKey, k) == WithKey(Filter(table, VisibleTo(userId)), UsageKey, k)
  {
    var p := VisibleTo(userId);
    var visible := Filter(table, p);
    FilterSpec(table, p);
    SortDescSpec(visible, UsageKey);
    var q := Query(table, userId);
    forall i | 0 <= i < |q| ensures Visible(q[i], userId) {
      assert q[i] in multiset(visible);
      var k :| 0 <= k < |visible| && visible[k] == q[i];
    }
    forall i, j | 0 <= i < j < |q| ensures q[i].usage_count >= q[j].usage_count {
      assert UsageKey(q[i]) >= UsageKey(q[j]);
    }
  }

  /** Without a user, or with the empty id, only public flows are visible. */
  lemma GuestSeesPublicOnly(f: Flow, userId: Option<string>)
    requires !Truthy(userId)
    ensures Visible(f, userId) <==> f.is_public
  {
  }

  /** `flows.map(f => f.id === id ? { ...f, usage_count: f.usage_count + 1 } : f)`. */
  function Incremented(flows: seq<Flow>, id: string): (r: seq<Flow>)
    ensures |r| == |flows|
    ensures forall i :: 0 <= i < |flows| ==>
      r[i] == if flows[i].id == id then flows[i].(usage_count := flows[i].usage_count + 1) else flows[i]
  {
    if flows == [] then []
    else
      var last := flows[|flows| - 1];
      Incremented(flows[..|flows| - 1], id)
      + [if last.id == id then last.(usage_count := last.usage_count + 1) else last]
  }

  /** Whether `f` has the given id, as a function value. */
  function HasId(id: string): Flow -> bool {
    (f: Flow) => f.id == id
  }

  function Usage(f: Flow): int {
    f.usage_count
  }

  /** The total usage grows by the number of flows with that id. */
  lemma {:induction false} IncrementedTotal(flows: seq<Flow>, id: string)
    ensures Sum(Incremented(flows, id), Usage) == Sum(flows, Usage) + |Filter(flows, HasId(id))|
  {
    if flows != [] {
      var init := flows[..|flows| - 1];
      IncrementedTotal(init, id);
      var r := Incremented(flows, id);
      assert r[..|r| - 1] == Incremented(init, id);
    }
  }

  /** The update keeps every id, so it keeps the order and the set of flows shown. */
  lemma IncrementedKeepsIds(flows: seq<Flow>, id: string)
    ensures KeysOf(Incremented(flows, id), (f: Flow) => f.id) == KeysOf(flows, (f: Flow) => f.id)
  {
  }

  /** `v.example || ''`, `v.defaultValue || ''`, `v.required || false`. */
  function ConvertVariable(v: FlowVariable): (r: Variable)
    ensures r.name == v.name
    ensures r.example == Some(if Truthy(v.example) then v.example.value else "")
    ensures r.defaultValue == Some(if Truthy(v.defaultValue) then v.defaultValue.value else "")
    ensures r.required == Some(IsTrue(v.required))
  {
    Variable(v.name,
             Some(if Truthy(v.example) then v.example.value else ""),
             Some(if Truthy(v.defaultValue) then v.defaultValue.value else ""),
             Some(v.required == Some(true)))
  }

  /** A converted variable never has a missing field, and is required only when
      the stored one explicitly was. */
  lemma ConvertVariableTotal(v: FlowVariable)
    ensures ConvertVariable(v).example.Some? && ConvertVariable(v).defaultValue.Some?
    ensures IsRequired(ConvertVariable(v)) <==> v.required == Some(true)
  {
  }

  function ConvertVariables(vs: seq<FlowVariable>): (r: seq<Variable>)
    ensures |r| == |vs|
    ensures forall i :: 0 <= i < |vs| ==> r[i] == ConvertVariable(vs[i])
  {
    if vs == [] then [] else ConvertVariables(vs[..|vs| - 1]) + [ConvertVariable(vs[|vs| - 1])]
  }

  /** `convertFlowToPrompt`. */
  function ConvertFlow(f: Flow): (p: Prompt)
    ensures p.id == f.id && p.title == f.name && p.content == f.prompt_template
    ensures p.profession == f.category && p.category == f.category && p.tone == DefaultTone
    ensures p.rating == Some(DefaultRating) && p.usageCount == Some(f.usage_count)
    ensures p.isPersonal == Some(f.is_personal) && p.createdAt == f.created_at
    ensures p.variables == ConvertVariables(f.variables)
    ensures p.author.None? && p.isFavorited.None?
  {
    Prompt(f.id, f.name, f.prompt_template, f.category, f.category, DefaultTone,
           ConvertVariables(f.variables), Some(DefaultRating), Some(f.usage_count),
           f.created_at, None, Some(f.is_personal), None)
  }

  /** The variable names of a converted prompt are the flow's, in order. */
  lemma ConvertFlowNames(f: Flow)
    ensures KeysOf(ConvertFlow(f).variables, (v: Variable) => v.name)
         == KeysOf(f.variables, (v: FlowVariable) => v.name)
  {
  }

  /** `flows.map(convertFlowToPrompt)`. */
  function PromptsOf(flows: seq<Flow>): (ps: seq<Prompt>)
    ensures |ps| == |flows|
    ensures forall i :: 0 <= i < |flows| ==> ps[i] == ConvertFlow(flows[i])
  {
    if flows == [] then [] else PromptsOf(flows[..|flows| - 1]) + [ConvertFlow(flows[|flows| - 1])]
  }

  /** The fields a caller passes to `createFlow`. */
  datatype NewFlow = NewFlow(
    name: string,
    description: string,
    category: string,
    icon_name: Option<string>,
    prompt_template: string,
    variables: Option<seq<FlowVariable>>,
    is_personal: Option<bool>,
    is_public: Option<bool>,
    gradient_colors: Option<string>,
    bg_gradient_colors: Option<string>)

  /** The record `createFlow` inserts. */
  datatype FlowInsert = FlowInsert(
    name: string,
    description: string,
    category: string,
    icon_name: Option<string>,
    prompt_template: string,
    variables: Option<seq<FlowVariable>>,
    is_personal: bool,
    is_public: bool,
    gradient_colors: Option<string>,
    bg_gradient_colors: Option<string>,
    created_by_user_id: string)

  /** The caller's fields, the owner, and `??` defaults: personal and not public
      unless the caller says otherwise, an explicit `false` included. */
  function InsertRecord(data: NewFlow, userId: string): (r: FlowInsert)
    ensures r.created_by_user_id == userId
    ensures r.is_personal == data.is_personal.GetOr(true)
    ensures r.is_public == data.is_public.GetOr(false)
    ensures data.is_personal == Some(false) ==> !r.is_personal
    ensures data.is_public.None? ==> !r.is_public
    ensures r.name == data.name && r.category == data.category && r.prompt_template == data.prompt_template
  {
    FlowInsert(data.name, data.description, data.category, data.icon_name, data.prompt_template,
               data.variables, data.is_personal.GetOr(true), data.is_public.GetOr(false),
               data.gradient_colors, data.bg_gradient_colors, userId)
  }

  /** How the flows query ended: rows, or an error with its message (a thrown value
      that is not an `Error` has none). */
  datatype FetchOutcome = FetchRows(table: seq<Flow>) | FetchFailed(message: Option<string>)

  /** How the insert ended: an error, or success with the row the database makes of
      the record (its generated id and timestamps included, as `.select().single()`
      gives it back), followed by the refresh. */
  datatype InsertOutcome = InsertFailed | InsertDone(stored: FlowInsert -> Flow, refresh: FetchOutcome)

  datatype CreateResult = CreateThrew(message: string) | CreateError | CreateOk(row: Flow)

  class FlowStore {
    const userId: Option<string>
    var flows: seq<Flow>
    var loading: bool
    var error: Option<string>

    constructor(userId: Option<string>)
      ensures this.userId == userId && flows == [] && loading && error.None?
    {
      this.userId := userId;
      flows := [];
      loading := true;
      error := None;
    }

    /** `fetchFlows`: on success the query's result replaces the list and the error
        is cleared; on failure the list stays and the error is set; loading ends. */
    method FetchFlows(outcome: FetchOutcome)
      modifies this
      ensures !loading
      ensures outcome.FetchRows? ==> flows == Query(outcome.table, userId) && error.None?
      ensures outcome.FetchFailed? ==> flows == old(flows) && error == Some(outcome.message.GetOr(GenericError))
    {
      loading := true;
      error := None;
      match outcome {
        case FetchRows(table) =>
          flows := Query(table, userId);
        case FetchFailed(message) =>
          error := Some(message.GetOr(GenericError));
      }
      loading := false;
    }

    /** `createFlow`: without a user it throws before inserting anything; otherwise
        it inserts the record and, on success, refreshes the list and returns the
        stored row. */
    method CreateFlow(data: NewFlow, outcome: InsertOutcome) returns (r: CreateResult)
      modifies this
      ensures !Truthy(userId) ==>
        (r == CreateThrew(NotLoggedInMessage) && flows == old(flows) && loading == old(loading) && error == old(error))
      ensures Truthy(userId) && outcome.InsertFailed? ==>
        (r == CreateError && flows == old(flows) && loading == old(loading) && error == old(error))
      ensures Truthy(userId) && outcome.InsertDone? ==>
        (r == CreateOk(outcome.stored(InsertRecord(data, userId.value))) && !loading)
      ensures Truthy(userId) && outcome.InsertDone? && outcome.refresh.FetchRows? ==>
        flows == Query(outcome.refresh.table, userId) && error.None?
      ensures Truthy(userId) && outcome.InsertDone? && outcome.refresh.FetchFailed? ==>
        flows == old(flows) && error == Some(outcome.refresh.message.GetOr(GenericError))
    {
      if !Truthy(userId) {
        return CreateThrew(NotLoggedInMessage);
      }
      var record := InsertRecord(data, userId.value);
      match outcome {
        case InsertFailed =>
          r := CreateError;
        case InsertDone(stored, refresh) =>
          FetchFlows(refresh);
          r := CreateOk(stored(record));
      }
    }

    /** `incrementUsageCount`: once the server call succeeds, the flows with that id
        count one more use; after an error nothing changes. */
    method IncrementUsageCount(id: string, rpcOk: bool)
      modifies this
      ensures rpcOk ==> flows == Incremented(old(flows), id)
      ensures !rpcOk ==> flows == old(flows)
      ensures loading == old(loading) && error == old(error)
    {
      if rpcOk {
        flows := Incremented(flows, id);
      }
    }

    /** `getPromptsFromFlows`: one prompt per flow, in the same order. */
    function PromptsFromFlows(): (ps: seq<Prompt>)
      reads this
      ensures |ps| == |flows|
      ensures forall i :: 0 <= i < |flows| ==> ps[i].id == flows[i].id && ps[i] == ConvertFlow(flows[i])
    {
      PromptsOf(flows)
    }
  }
}
