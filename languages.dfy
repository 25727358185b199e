/** The target dialect of the generated tests and its resolution from a
    free-form version string (the `Language` enum of TestGenerator.swift). */
module Languages {
  import opened Strings

  /** Swift 3 calls the runner with an argument label, Swift 2 without. */
  datatype Language = Swift3 | Swift2

  /** What `Language.init(value:)` decides. The source prints a notice on its
      default branch; `usedDefault` records that the notice is due. */
  datatype Resolution = Resolution(language: Language, usedDefault: bool)

  /** `marker` occurs in `value` once `value` is lower-cased. */
  ghost predicate Mentions(value: string, marker: string) {
    exists i :: OccursAt(Lower(value), marker, i)
  }

  /** Resolution looks for "swift2" first, then "swift3", case-insensitively,
      and falls back to Swift 3 (with the notice) when neither occurs. */
  function Resolve(value: string): (r: Resolution)
    ensures r.language == Swift2 <==> Mentions(value, "swift2")
    ensures r.language == Swift3 <==> !Mentions(value, "swift2")
    ensures r.usedDefault <==> !Mentions(value, "swift2") && !Mentions(value, "swift3")
  {
    var lowercaseValue := Lower(value);
    ContainsIff(lowercaseValue, "swift2");
    ContainsIff(lowercaseValue, "swift3");
    if Contains(lowercaseValue, "swift2") then Resolution(Swift2, false)
    else if Contains(lowercaseValue, "swift3") then Resolution(Swift3, false)
    else Resolution(Swift3, true)
  }

  /** The marker may be written in any mix of cases anywhere in the string. */
  lemma Swift2InAnyCase(before: string, marker: string, after: string)
    requires Lower(marker) == "swift2"
    ensures Resolve(before + marker + after) == Resolution(Swift2, false)
  {
    LowerAppend(before, marker);
    LowerAppend(before + marker, after);
    assert OccursAt(Lower(before + marker + after), "swift2", |before|);
  }

  /** "swift2" wins even when "swift3" occurs earlier in the string, because
      it is checked first. */
  lemma Swift2TakesPrecedence(a: string, b: string, c: string)
    ensures Resolve(a + "swift3" + b + "swift2" + c) == Resolution(Swift2, false)
  {
    Swift2InAnyCase(a + "swift3" + b, "swift2", c);
  }

  /** A "swift3" marker in any case, with no "swift2", selects Swift 3 without
      the notice. */
  lemma Swift3InAnyCase(before: string, marker: string, after: string)
    requires Lower(marker) == "swift3"
    requires !Mentions(before + marker + after, "swift2")
    ensures Resolve(before + marker + after) == Resolution(Swift3, false)
  {
    LowerAppend(before, marker);
    LowerAppend(before + marker, after);
    assert OccursAt(Lower(before + marker + after), "swift3", |before|);
  }

  /** Strings too short to hold a marker, the empty string among them, fall
      back to Swift 3 with the notice. */
  lemma ShortStringsDefault(value: string)
    requires |value| < 6
    ensures Resolve(value) == Resolution(Swift3, true)
  {
  }

  /** A version written with a space is not recognised: "Swift 2.3" falls back
      to Swift 3, the dialect a Swift 2 user did not ask for. */
  lemma SpacedVersionDefaults()
    ensures Resolve("Swift 2.3") == Resolution(Swift3, true)
  {
    var lower := Lower("Swift 2.3");
    assert lower == "swift 2.3";
    forall i | 0 <= i <= 3
      ensures !OccursAt(lower, "swift2", i) && !OccursAt(lower, "swift3", i)
    {
      assert lower[i + 5] != '2' || lower[i + 4] != 't';
    }
  }
}
