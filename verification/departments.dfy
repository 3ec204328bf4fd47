/**
 The department registry: the fixed, ordered list of six routing targets shared by the
 prompt and the validation of replies, and the sentinel meaning "no department".
 */
module Departments {
  import Text

  /** `DEPARTMENTS`, identical in all three versions of the router. */
  const Names: seq<string> := [
    "Департамент транспорта",
    "Департамент культуры",
    "Департамент здравоохранения",
    "Департамент образования",
    "Департамент экологии",
    "Департамент физической культуры и спорта"
  ]

  /** The answer "Не определено" the prompt asks for when nothing fits. */
  const Unresolved: string := "Не определено"

  predicate IsDepartment(name: string) {
    name in Names
  }

  /**
   The registry holds six distinct names, none of them the sentinel, and every name is
   already stripped, so `strip()` never stands between a correct answer and acceptance.
   */
  lemma RegistryWellFormed()
    ensures |Names| == 6
    ensures forall i, j :: 0 <= i < j < |Names| ==> Names[i] != Names[j]
    ensures !IsDepartment(Unresolved)
    ensures forall i :: 0 <= i < |Names| ==> Text.Trimmed(Names[i])
  {
  }
}
