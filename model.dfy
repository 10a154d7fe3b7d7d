/** The records the screens and hooks share: users, template variables, prompts
    and saved executions. Optional TypeScript properties become `Option` fields;
    dates are milliseconds since the epoch. */
module Model {

  datatype Option<T> = None | Some(value: T) {
    function GetOr(default: T): (r: T)
      ensures Some? ==> r == value
      ensures None? ==> r == default
    {
      if Some? then value else default
    }
  }

  /** JavaScript truthiness of an optional string: present and non-empty. */
  predicate Truthy(o: Option<string>) {
    o.Some? && o.value != ""
  }

  /** JavaScript truthiness of an optional boolean. */
  predicate IsTrue(o: Option<bool>) {
    o == Some(true)
  }

  datatype User = User(
    id: string,
    name: string,
    email: string,
    profession: string,
    isPro: bool,
    promptsUsed: int,
    promptsLimit: int)

  datatype Variable = Variable(
    name: string,
    example: Option<string>,
    defaultValue: Option<string>,
    required: Option<bool>)

  /** `variable.required` is truthy. */
  predicate IsRequired(v: Variable) {
    IsTrue(v.required)
  }

  datatype Prompt = Prompt(
    id: string,
    title: string,
    content: string,
    profession: string,
    category: string,
    tone: string,
    variables: seq<Variable>,
    rating: Option<real>,
    usageCount: Option<int>,
    createdAt: int,
    author: Option<string>,
    isPersonal: Option<bool>,
    isFavorited: Option<bool>)

  datatype PromptExecution = PromptExecution(
    id: string,
    promptId: string,
    variables: map<string, string>,
    result: string,
    createdAt: int)

  /** What the onboarding wizard hands to the application. */
  datatype OnboardingData = OnboardingData(name: string, email: string, profession: string)
}
