/**
 The first router version: the oracle is asked for a bare department name, and its
 stripped reply is accepted only when it is exactly one of the registry's names.
 Anything else, an oracle failure included, becomes the sentinel.
 */
module LabelRouter {
  import opened Text
  import opened Departments
  import opened Oracle

  /** Interpreting one reply: strip, then exact membership in the registry. */
  function InterpretLabel(reply: Reply): (r: string)
    ensures IsDepartment(r) || r == Unresolved
    ensures IsDepartment(r) <==> reply.Answer? && IsDepartment(Strip(reply.text))
    ensures IsDepartment(r) ==> r == Strip(reply.text)
  {
    match reply
    case Failure => Unresolved
    case Answer(text) =>
      var department := Strip(text);
      if department in Names then department else Unresolved
  }

  /** `classify_request`: one oracle call on the label-only prompt, then interpretation. */
  function ClassifyRequest(request: string, oracle: PromptArgs -> Reply): (r: string)
    ensures IsDepartment(r) || r == Unresolved
    ensures oracle(PromptFor(LabelOnly, request)).Failure? ==> r == Unresolved
  {
    InterpretLabel(oracle(PromptFor(LabelOnly, request)))
  }

  /**
   A reply naming a department, with any white space around it, routes to that
   department unchanged.
   */
  lemma PaddedDepartmentAccepted(pre: string, department: string, post: string)
    requires AllSpace(pre) && AllSpace(post) && IsDepartment(department)
    ensures InterpretLabel(Answer(pre + department + post)) == department
  {
    RegistryWellFormed();
    StripPadded(pre, department, post);
  }

  /**
   The list offered to the oracle in the prompt and the list replies are checked
   against are the same: a reply is routed to a department exactly when its stripped
   text is one of the names the prompt offered.
   */
  lemma PromptAndValidationAgree(request: string, oracle: PromptArgs -> Reply)
    ensures var p := PromptFor(LabelOnly, request);
      var reply := oracle(p);
      (ClassifyRequest(request, oracle) in p.departments)
        <==> (reply.Answer? && Strip(reply.text) in p.departments)
    ensures var p := PromptFor(LabelOnly, request);
      var reply := oracle(p);
      (reply.Answer? && Strip(reply.text) in p.departments)
        ==> ClassifyRequest(request, oracle) == Strip(reply.text)
  {
  }

  /** A trimmed reply that is not a registry name is not routed. */
  lemma UnlistedReplyUnresolved(text: string)
    requires Trimmed(text) && !IsDepartment(text)
    ensures InterpretLabel(Answer(text)) == Unresolved
  {
    StripLeavesTrimmed(text);
  }

  /** Every registry name starts with a capital "Д". */
  lemma NotDepartmentByFirstChar(text: string)
    requires |text| > 0 && text[0] != 'Д'
    ensures !IsDepartment(text)
  {
    forall i | 0 <= i < |Names| ensures Names[i] != text {
      assert Names[i][0] == 'Д';
    }
  }

  /** The registry names have 20, 22, 23, 27 and 40 characters. */
  lemma NotDepartmentByLength(text: string)
    requires |text| !in {20, 22, 23, 27, 40}
    ensures !IsDepartment(text)
  {
    forall i | 0 <= i < |Names| ensures Names[i] != text {
      assert |Names[i]| in {20, 22, 23, 27, 40};
    }
  }

  /**
   Matching is exact: free text is not routed, and neither is a reply that differs
   from a department name in case, that merely contains one, or that is the sentinel.
   */
  lemma FreeTextUnresolved()
    ensures InterpretLabel(Answer("дороги плохие")) == Unresolved
  {
    NotDepartmentByFirstChar("дороги плохие");
    UnlistedReplyUnresolved("дороги плохие");
  }

  lemma CaseMismatchUnresolved()
    ensures InterpretLabel(Answer("департамент транспорта")) == Unresolved
  {
    NotDepartmentByFirstChar("департамент транспорта");
    UnlistedReplyUnresolved("департамент транспорта");
  }

  lemma ContainingDepartmentUnresolved()
    ensures InterpretLabel(Answer("Департамент транспорта и дорог")) == Unresolved
  {
    NotDepartmentByLength("Департамент транспорта и дорог");
    UnlistedReplyUnresolved("Департамент транспорта и дорог");
  }

  lemma SentinelReplyUnresolved()
    ensures InterpretLabel(Answer(Unresolved)) == Unresolved
  {
    NotDepartmentByFirstChar(Unresolved);
    UnlistedReplyUnresolved(Unresolved);
  }

  /** The potholes request whose reply names the transport department, with a trailing newline. */
  lemma PotholesRoutedToTransport(oracle: PromptArgs -> Reply)
    requires oracle(PromptFor(LabelOnly, "Ямы на дороге возле дома")) == Answer("Департамент транспорта" + "\n")
    ensures ClassifyRequest("Ямы на дороге возле дома", oracle) == "Департамент транспорта"
  {
    assert IsDepartment("Департамент транспорта") by { assert Names[0] == "Департамент транспорта"; }
    assert AllSpace("\n");
    assert "" + "Департамент транспорта" + "\n" == "Департамент транспорта" + "\n";
    PaddedDepartmentAccepted("", "Департамент транспорта", "\n");
  }
}
