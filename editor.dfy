/** The prompt editor (CreatePromptScreen): its form state, the variable list kept
    in step with the content, the test preview and the save action. */
module Editor {
  import opened Model
  import opened Text
  import opened Template

  const TestPrefix: string := "Voici un exemple de résultat basé sur votre prompt :\n\n"
  const TestSuffix: string := "\n\nCe prompt semble bien structuré et devrait produire des résultats cohérents. N'hésitez pas à l'ajuster selon vos besoins spécifiques."
  const PublishedMessage: string := "Prompt sauvegardé et publié dans la communauté avec succès !"
  const PrivateMessage: string := "Prompt sauvegardé en privé avec succès !"
  const SavedScreen: string := "my-prompts"

  /** What a test run captured when the button was pressed: the handler's closure
      reads `content` and `detectedVariables` as they were then. */
  datatype TestRun = TestRun(content: string, variables: seq<Variable>)

  /** The message the save action shows: it depends only on the visibility choice. */
  function SaveMessage(publish: bool): (m: string)
    ensures m == PublishedMessage <==> publish
    ensures m == PrivateMessage <==> !publish
  {
    if publish then PublishedMessage else PrivateMessage
  }

  /** The `forEach` of `handleTest`: each captured variable's placeholders are
      replaced in list order by its preview value. */
  method TestPrompt(run: TestRun) returns (testPrompt: string)
    ensures testPrompt == SubstituteAll(run.content, run.variables, Preview)
  {
    testPrompt := run.content;
    var i := 0;
    while i < |run.variables|
      invariant 0 <= i <= |run.variables|
      invariant SubstituteAll(testPrompt, run.variables[i..], Preview)
             == SubstituteAll(run.content, run.variables, Preview)
    {
      var variable := run.variables[i];
      var value := ValueFor(Preview, variable);
      assert run.variables[i..][1..] == run.variables[i + 1..];
      testPrompt := ReplaceAll(testPrompt, Pattern(variable.name), value);
      i := i + 1;
    }
  }

  class PromptEditor {
    const user: User
    var title: string
    var profession: string
    var content: string
    var detectedVariables: seq<Variable>
    var testResult: string
    var isTestLoading: bool
    var publishToCommunity: bool

    /** A free user always publishes to the community (the visibility choice is
        only offered to PRO users), and the variable list has one record per name
        detected in the content, in order. */
    predicate Valid()
      reads this
    {
      (publishToCommunity || user.isPro) && Tracks(detectedVariables, DetectNames(content))
    }

    constructor(user: User)
      ensures Valid()
      ensures this.user == user && title == "" && profession == user.profession && content == ""
      ensures detectedVariables == [] && testResult == "" && !isTestLoading
      ensures publishToCommunity == !user.isPro
    {
      this.user := user;
      title := "";
      profession := user.profession;
      content := "";
      detectedVariables := [];
      testResult := "";
      isTestLoading := false;
      publishToCommunity := !user.isPro;
      assert DetectNames("") == [];
    }

    method SetTitle(t: string)
      requires Valid()
      modifies this
      ensures Valid()
      ensures title == t
      ensures profession == old(profession) && content == old(content)
      ensures detectedVariables == old(detectedVariables) && testResult == old(testResult)
      ensures isTestLoading == old(isTestLoading) && publishToCommunity == old(publishToCommunity)
    {
      title := t;
    }

    method SetProfession(p: string)
      requires Valid()
      modifies this
      ensures Valid()
      ensures profession == p
      ensures title == old(title) && content == old(content)
      ensures detectedVariables == old(detectedVariables) && testResult == old(testResult)
      ensures isTestLoading == old(isTestLoading) && publishToCommunity == old(publishToCommunity)
    {
      profession := p;
    }

    /** Typing in the content field, followed by the detection effect. */
    method SetContent(c: string)
      requires Valid()
      modifies this
      ensures Valid()
      ensures content == c && detectedVariables == Rescan(old(detectedVariables), c)
      ensures title == old(title) && profession == old(profession) && testResult == old(testResult)
      ensures isTestLoading == old(isTestLoading) && publishToCommunity == old(publishToCommunity)
    {
      content := c;
      detectedVariables := Rescan(detectedVariables, c);
    }

    /** `updateVariable(index, field, value)`. */
    method EditVariable(index: int, edit: Edit)
      requires Valid()
      modifies this
      ensures Valid()
      ensures detectedVariables == UpdateVariable(old(detectedVariables), index, edit)
      ensures title == old(title) && profession == old(profession) && content == old(content)
      ensures testResult == old(testResult) && isTestLoading == old(isTestLoading)
      ensures publishToCommunity == old(publishToCommunity)
    {
      detectedVariables := UpdateVariable(detectedVariables, index, edit);
    }

    /** The private/public choice, which only PRO users are shown. */
    method SetPublish(publish: bool)
      requires Valid() && user.isPro
      modifies this
      ensures Valid()
      ensures publishToCommunity == publish
      ensures title == old(title) && profession == old(profession) && content == old(content)
      ensures detectedVariables == old(detectedVariables) && testResult == old(testResult)
      ensures isTestLoading == old(isTestLoading)
    {
      publishToCommunity := publish;
    }

    /** The Test button is disabled for blank content or while a test runs. */
    function TestDisabled(): (d: bool)
      reads this
      ensures d <==> IsBlank(content) || isTestLoading
    {
      Trim(content) == [] || isTestLoading
    }

    /** The Save button is disabled unless title and content are not blank and a
        profession is chosen. */
    function SaveDisabled(): (d: bool)
      reads this
      ensures d <==> IsBlank(title) || IsBlank(content) || profession == []
    {
      Trim(title) == [] || Trim(content) == [] || profession == []
    }

    /** `handleTest` up to its wait: the loading flag goes up and the inputs are captured. */
    method StartTest() returns (run: TestRun)
      requires Valid()
      modifies this
      ensures Valid()
      ensures isTestLoading && run == TestRun(content, detectedVariables)
      ensures title == old(title) && profession == old(profession) && content == old(content)
      ensures detectedVariables == old(detectedVariables) && testResult == old(testResult)
      ensures publishToCommunity == old(publishToCommunity)
    {
      isTestLoading := true;
      run := TestRun(content, detectedVariables);
    }

    /** `handleTest` after its wait: each captured variable's placeholders are replaced
        in list order by its preview value, the result is framed by the fixed text,
        and the loading flag goes down. */
    method FinishTest(run: TestRun)
      requires Valid()
      modifies this
      ensures Valid()
      ensures testResult == TestPrefix + SubstituteAll(run.content, run.variables, Preview) + TestSuffix
      ensures !isTestLoading
      ensures title == old(title) && profession == old(profession) && content == old(content)
      ensures detectedVariables == old(detectedVariables) && publishToCommunity == old(publishToCommunity)
    {
      var testPrompt := TestPrompt(run);
      testResult := TestPrefix + testPrompt + TestSuffix;
      isTestLoading := false;
    }

    /** `handleSave`: the message to show and the screen to go to. */
    method Save() returns (message: string, screen: string)
      requires Valid()
      ensures message == SaveMessage(publishToCommunity) && screen == SavedScreen
      ensures !user.isPro ==> message == PublishedMessage
    {
      message := SaveMessage(publishToCommunity);
      screen := SavedScreen;
    }
  }
}
