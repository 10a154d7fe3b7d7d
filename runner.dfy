/** The execution screen (ExecutePromptScreen): the entered values, the final
    prompt, the required-field gate and the simulated generation. */
module Runner {
  import opened Model
  import opened Text
  import opened Template

  const DefaultContent: string := "Rédigez un email professionnel pour répondre à {{nom_candidat}} concernant sa candidature pour le poste de {{poste}}. Le ton doit être {{ton}} et inclure les éléments suivants : {{elements_reponse}}."

  /** The built-in prompt shown when no prompt is passed in; `now` stands for its
      `new Date()`. */
  function DefaultPrompt(now: int): (p: Prompt)
    ensures |p.variables| == 4 && p.createdAt == now
  {
    Prompt("1", "Email de réponse candidature",
           DefaultContent,
           "Responsable RH", "Communication", "Professionnel", DefaultVariables(),
           Some(4.8), Some(1250), now, None, None, None)
  }

  function DefaultVariables(): (vs: seq<Variable>)
    ensures |vs| == 4
  {
    [ Variable("nom_candidat", Some("Marie Dupont"), Some(""), Some(true)),
      Variable("poste", Some("Développeur Frontend"), Some(""), Some(true)),
      Variable("ton", Some("Bienveillant"), Some("Professionnel"), Some(false)),
      Variable("elements_reponse", Some("Remerciements, prochaines étapes, contact RH"), Some(""), Some(true)) ]
  }

  /** The built-in prompt can be generated exactly when the candidate's name, the
      position and the reply elements are filled in; the tone is optional. */
  lemma DefaultPromptGate(values: map<string, Option<string>>)
    ensures CanGenerate(DefaultVariables(), values) <==>
      HasValue(values, "nom_candidat") && HasValue(values, "poste") && HasValue(values, "elements_reponse")
  {
    var vs := DefaultVariables();
    assert vs[0].name == "nom_candidat" && IsRequired(vs[0]);
    assert vs[1].name == "poste" && IsRequired(vs[1]);
    assert !IsRequired(vs[2]);
    assert vs[3].name == "elements_reponse" && IsRequired(vs[3]);
    if HasValue(values, "nom_candidat") && HasValue(values, "poste") && HasValue(values, "elements_reponse") {
      forall i | 0 <= i < |vs| && IsRequired(vs[i]) ensures HasValue(values, vs[i].name) {
        assert i == 0 || i == 1 || i == 3;
      }
    }
  }

  /** The built-in prompt starts with the tone filled in and cannot be generated. */
  lemma DefaultPromptStart()
    ensures InitialValues(DefaultVariables())["ton"] == Some("Professionnel")
    ensures !CanGenerate(DefaultVariables(), InitialValues(DefaultVariables()))
  {
    var vs := DefaultVariables();
    var m := InitialValues(vs);
    InitialValuesSpec(vs);
    assert vs[2].name == "ton" && LastOfName(vs, 2);
    assert vs[0].name == "nom_candidat" && LastOfName(vs, 0);
    assert !HasValue(m, "nom_candidat");
    DefaultPromptGate(m);
  }

  /** `values.key || fallback`. */
  function EnteredOr(values: map<string, Option<string>>, key: string, fallback: string): (r: string)
    ensures Truthy(Lookup(values, key)) ==> r == values[key].value
    ensures !Truthy(Lookup(values, key)) ==> r == fallback
  {
    if Truthy(Lookup(values, key)) then values[key].value else fallback
  }

  const MockHead: string := "Objet : Réponse à votre candidature - "
  const MockMiddle: string := ",\n\nJe vous remercie pour l'intérêt que vous portez à notre entreprise et pour votre candidature au poste de "

  /** The simulated generation's text, built from the position and candidate entries. */
  function MockResult(values: map<string, Option<string>>): string {
    var poste := EnteredOr(values, "poste", "Poste");
    var nom := EnteredOr(values, "nom_candidat", "Candidat");
    MockHead + poste + "\n\nBonjour " + nom + MockMiddle + poste
    + MockTail
  }

  const MockTail: string := ".\n\nAprès avoir examiné votre profil, nous souhaitons vous informer que votre candidature a retenu notre attention. Votre expérience et vos compétences correspondent aux critères que nous recherchons.\n\nNous aimerions vous rencontrer pour un entretien afin d'échanger davantage sur vos motivations et vos expériences. Seriez-vous disponible la semaine prochaine pour un entretien ?\n\nEn attendant votre retour, je reste à votre disposition pour toute question.\n\nCordialement,\n[Votre nom]\nService Ressources Humaines"

  /** The generated text reads only the `poste` and `nom_candidat` entries: it does
      not depend on the prompt, its content or any other value. */
  lemma MockResultReadsTwoEntries(a: map<string, Option<string>>, b: map<string, Option<string>>)
    requires Lookup(a, "poste") == Lookup(b, "poste")
    requires Lookup(a, "nom_candidat") == Lookup(b, "nom_candidat")
    ensures MockResult(a) == MockResult(b)
  {
    assert EnteredOr(a, "poste", "Poste") == EnteredOr(b, "poste", "Poste");
    assert EnteredOr(a, "nom_candidat", "Candidat") == EnteredOr(b, "nom_candidat", "Candidat");
  }

  /** What a generation captured when the button was pressed. */
  datatype GenerateRun = GenerateRun(values: map<string, Option<string>>)

  class PromptRunner {
    const prompt: Prompt
    var variableValues: map<string, Option<string>>
    var isGenerating: bool
    var result: string

    /** `prompt || default`, and the initial values from the `reduce`. */
    constructor(given: Option<Prompt>, now: int)
      ensures given.Some? ==> prompt == given.value
      ensures given.None? ==> prompt == DefaultPrompt(now)
      ensures variableValues == InitialValues(prompt.variables)
      ensures !isGenerating && result == ""
    {
      prompt := given.GetOr(DefaultPrompt(now));
      variableValues := InitialValues(given.GetOr(DefaultPrompt(now)).variables);
      isGenerating := false;
      result := "";
    }

    /** `handleVariableChange(name, value)`: that key is set, every other key stays. */
    method ChangeValue(name: string, value: string)
      modifies this
      ensures variableValues == old(variableValues)[name := Some(value)]
      ensures forall n :: n != name ==> Lookup(variableValues, n) == Lookup(old(variableValues), n)
      ensures isGenerating == old(isGenerating) && result == old(result)
    {
      variableValues := variableValues[name := Some(value)];
    }

    /** `generateFinalPrompt`: each variable's placeholders are replaced, in list
        order, by its entered value, else its default, else `[name]`. */
    method FinalPrompt() returns (finalPrompt: string)
      ensures finalPrompt == SubstituteAll(prompt.content, prompt.variables, Entered(variableValues))
    {
      finalPrompt := prompt.content;
      var vars := prompt.variables;
      var i := 0;
      while i < |vars|
        invariant 0 <= i <= |vars|
        invariant SubstituteAll(finalPrompt, vars[i..], Entered(variableValues))
               == SubstituteAll(prompt.content, vars, Entered(variableValues))
      {
        var variable := vars[i];
        var value := ValueFor(Entered(variableValues), variable);
        assert vars[i..][1..] == vars[i + 1..];
        finalPrompt := ReplaceAll(finalPrompt, Pattern(variable.name), value);
        i := i + 1;
      }
    }

    function CanGenerateNow(): (ok: bool)
      reads this
      ensures ok <==> forall i :: 0 <= i < |prompt.variables| && IsRequired(prompt.variables[i]) ==>
        HasValue(variableValues, prompt.variables[i].name)
    {
      CanGenerate(prompt.variables, variableValues)
    }

    /** The Generate button is disabled while the gate is closed or a generation runs. */
    function GenerateDisabled(): (d: bool)
      reads this
      ensures d <==> isGenerating ||
                     (exists i :: 0 <= i < |prompt.variables| && IsRequired(prompt.variables[i]) &&
                                  !HasValue(variableValues, prompt.variables[i].name))
    {
      !CanGenerateNow() || isGenerating
    }

    /** `handleGenerate` up to its wait. */
    method StartGenerate() returns (run: GenerateRun)
      modifies this
      ensures isGenerating && run == GenerateRun(variableValues)
      ensures variableValues == old(variableValues) && result == old(result)
    {
      isGenerating := true;
      run := GenerateRun(variableValues);
    }

    /** `handleGenerate` after its wait: the result is the simulated text for the
        values captured at the start, and the flag goes down. */
    method FinishGenerate(run: GenerateRun)
      modifies this
      ensures result == MockResult(run.values) && !isGenerating
      ensures variableValues == old(variableValues)
    {
      result := MockResult(run.values);
      isGenerating := false;
    }
  }
}
