/** The statin recommendation of `statin_logic.py`: two threshold tables, one on
    creatine kinase (CK) and muscle symptoms, one on transaminase (ALT/AST) and
    bilirubin, each contributing one paragraph of advice to the returned text.
    Clinical readings are Python floats that are only compared with constants;
    they are modelled as finite, non-NaN `real`s. */
module StatinLogic {
  import opened PyStr

  /** Upper limit of normal for CK, in U/L. */
  const UlnCk: int := 200
  /** Upper limit of normal for ALT/AST, in U/L. */
  const UlnAlt: int := 40
  /** Total bilirubin cut-off, in mg/dL. */
  const BilirubinThreshold: real := 2.0

  /** A CK paragraph: the "CK:" heading, the advice, a full stop and a blank
      line, so that the liver paragraph appended next starts a new block. */
  function CkParagraph(advice: string): (p: string) {
    "CK: " + advice + ".\n\n"
  }

  /** A liver paragraph: the "Liver:" heading, the advice, a full stop and a
      newline. */
  function LiverParagraph(advice: string): (p: string) {
    "Liver: " + advice + ".\n"
  }

  const CkWithdrawHydrate: string :=
    CkParagraph("Withdraw statin, hydrate, and monitor renal function")
  const CkWithdrawConsider: string :=
    CkParagraph("Withdraw statin. Consider nonstatin-related causes and modify risk factors")
  const CkWithdrawReinitiate: string :=
    CkParagraph("Withdraw statin. Consider nonstatin-related causes and modify risk factors.\n"
      + "- If symptoms resolve and CK returns to normal: reinitiate statin at a reduced dose or switch to an alternative statin.\n"
      + "- If CK remains elevated (>3x ULN) or symptoms persist: consult a specialist or consider muscle biopsy")
  const CkContinue: string :=
    CkParagraph("Continue statin. Follow up CK in 2–4 weeks. Consider nonstatin-related causes and modify risk factors")

  const LiverStart: string :=
    LiverParagraph("Start statin. Follow-up liver function test in 12 weeks")
  const LiverConsider: string :=
    LiverParagraph("Consider starting statin. Reassess liver function and bilirubin in 2–4 weeks")
  const LiverBilirubinHigh: string :=
    LiverParagraph("Do not start statin. Bilirubin > 2 mg/dL. Consult hepatic experts")
  const LiverTransaminaseHigh: string :=
    LiverParagraph("Do not start statin. Transaminase > 3× ULN. Consult hepatic experts")

  const CkMessages: set<string> :=
    {CkWithdrawHydrate, CkWithdrawConsider, CkWithdrawReinitiate, CkContinue}
  const LiverMessages: set<string> :=
    {LiverStart, LiverConsider, LiverBilirubinHigh, LiverTransaminaseHigh}

  /** The shape every CK paragraph has: "CK:" first, a blank line last. */
  predicate IsCkParagraph(p: string) {
    |p| >= 5 && p[..3] == "CK:" && p[|p| - 3] == '.' && p[|p| - 2] == '\n' && p[|p| - 1] == '\n'
  }

  /** The shape every liver paragraph has: "Liver:" first, ".\n" last. */
  predicate IsLiverParagraph(p: string) {
    |p| >= 8 && p[..6] == "Liver:" && p[|p| - 2] == '.' && p[|p| - 1] == '\n'
  }

  /** The shape of the returned text: it starts with "CK:" and ends with the
      full stop of the last advice, so no newline or other whitespace trails. */
  predicate IsRecommendationText(r: string) {
    |r| >= 3 && r[..3] == "CK:" && r[|r| - 1] == '.'
  }

  /** The CK and myopathy assessment: the if/elif/elif chain on `ck`. The final
      `else` is the case in which no guard holds and nothing is appended; no
      real `ck` reaches it, so one CK paragraph is always produced. */
  function CkSection(ck: real, muscleSymptoms: bool): (p: string)
    ensures IsCkParagraph(p)
  {
    if ck > (10 * UlnCk) as real || (muscleSymptoms && ck > (10 * UlnCk) as real) then
      CkWithdrawHydrate
    else if (3 * UlnCk) as real < ck <= (10 * UlnCk) as real then
      CkWithdrawConsider
    else if ck <= (3 * UlnCk) as real then
      if muscleSymptoms then CkWithdrawReinitiate else CkContinue
    else
      ""
  }

  /** The liver function assessment: the if/elif/else chain on `transaminase`,
      with bilirubin consulted in the middle band only. */
  function LiverSection(transaminase: real, bilirubin: real): (p: string)
    ensures IsLiverParagraph(p)
  {
    if transaminase <= UlnAlt as real then
      LiverStart
    else if UlnAlt as real < transaminase <= (3 * UlnAlt) as real then
      if bilirubin <= BilirubinThreshold then LiverConsider else LiverBilirubinHigh
    else
      LiverTransaminaseHigh
  }

  // CK section: one lemma per band, then the whole table.

  /** Above 10x ULN (2000 U/L) the advice is to withdraw, hydrate and watch the
      kidneys, with or without muscle symptoms: the `muscle_symptoms` disjunct
      of the first guard adds nothing. */
  lemma HighCkIgnoresSymptoms(ck: real, muscleSymptoms: bool)
    requires ck > 2000.0
    ensures CkSection(ck, muscleSymptoms) == CkSection(ck, !muscleSymptoms) == CkWithdrawHydrate
  {
  }

  /** Above 3x ULN (600 U/L) up to and including 10x ULN (2000 U/L) the advice
      is to withdraw and look for other causes, with or without symptoms. */
  lemma MiddleCkIgnoresSymptoms(ck: real, muscleSymptoms: bool)
    requires 600.0 < ck <= 2000.0
    ensures CkSection(ck, muscleSymptoms) == CkSection(ck, !muscleSymptoms) == CkWithdrawConsider
  {
  }

  /** At or below 3x ULN (600 U/L) only the symptoms decide: withdraw with the
      reinitiation guidance when present, continue and follow up when absent. */
  lemma LowCkFollowsSymptoms(ck: real, muscleSymptoms: bool)
    requires ck <= 600.0
    ensures CkSection(ck, muscleSymptoms) == if muscleSymptoms then CkWithdrawReinitiate else CkContinue
  {
  }

  /** The four CK paragraphs are pairwise different. */
  lemma CkMessagesDistinct()
    ensures |CkMessages| == 4
  {
    assert |CkWithdrawHydrate| < |CkWithdrawConsider| < |CkContinue| < |CkWithdrawReinitiate|;
  }

  /** The CK table in full: every reading gets one of the four paragraphs (the
      fall-through that appends nothing is never taken), and each paragraph is
      given exactly on its band, so the bands do not overlap. 2000 belongs to
      the middle band and 600 to the lowest. */
  lemma CkSectionCases(ck: real, muscleSymptoms: bool)
    ensures CkSection(ck, muscleSymptoms) in CkMessages
    ensures CkSection(ck, muscleSymptoms) == CkWithdrawHydrate <==> ck > 2000.0
    ensures CkSection(ck, muscleSymptoms) == CkWithdrawConsider <==> 600.0 < ck <= 2000.0
    ensures CkSection(ck, muscleSymptoms) == CkWithdrawReinitiate <==> ck <= 600.0 && muscleSymptoms
    ensures CkSection(ck, muscleSymptoms) == CkContinue <==> ck <= 600.0 && !muscleSymptoms
  {
    CkMessagesDistinct();
    if ck > 2000.0 {
      HighCkIgnoresSymptoms(ck, muscleSymptoms);
    } else if ck > 600.0 {
      MiddleCkIgnoresSymptoms(ck, muscleSymptoms);
    } else {
      LowCkFollowsSymptoms(ck, muscleSymptoms);
    }
  }

  /** The CK boundaries: exactly 2000 U/L is still the middle band and exactly
      600 U/L is already the lowest one. */
  lemma CkBoundaries(muscleSymptoms: bool)
    ensures CkSection(2000.0, muscleSymptoms) == CkWithdrawConsider
    ensures CkSection(600.0, muscleSymptoms) != CkWithdrawConsider
    ensures CkSection(600.0, false) == CkContinue && CkSection(600.0, true) == CkWithdrawReinitiate
  {
    CkSectionCases(600.0, muscleSymptoms);
  }

  // Liver section: one lemma per band, then the whole table.

  /** At or below ULN (40 U/L, inclusive) the advice is to start the statin. */
  lemma NormalTransaminaseStarts(transaminase: real, bilirubin: real)
    requires transaminase <= 40.0
    ensures LiverSection(transaminase, bilirubin) == LiverStart
  {
  }

  /** Above ULN up to and including 3x ULN (120 U/L) bilirubin decides, with
      2.0 mg/dL itself still allowing the statin to be considered. */
  lemma MiddleTransaminaseFollowsBilirubin(transaminase: real, bilirubin: real)
    requires 40.0 < transaminase <= 120.0
    ensures LiverSection(transaminase, bilirubin)
      == if bilirubin <= 2.0 then LiverConsider else LiverBilirubinHigh
  {
  }

  /** Above 3x ULN (120 U/L) the statin is not started. */
  lemma HighTransaminaseStops(transaminase: real, bilirubin: real)
    requires transaminase > 120.0
    ensures LiverSection(transaminase, bilirubin) == LiverTransaminaseHigh
  {
  }

  /** The four liver paragraphs are pairwise different. */
  lemma LiverMessagesDistinct()
    ensures |LiverMessages| == 4
  {
    assert |LiverStart| < |LiverBilirubinHigh| < |LiverTransaminaseHigh| < |LiverConsider|;
  }

  /** The liver table in full: every reading gets one of the four paragraphs,
      each exactly on its band. 40 belongs to the lowest band, 120 to the
      middle one. */
  lemma LiverSectionCases(transaminase: real, bilirubin: real)
    ensures LiverSection(transaminase, bilirubin) in LiverMessages
    ensures LiverSection(transaminase, bilirubin) == LiverStart <==> transaminase <= 40.0
    ensures LiverSection(transaminase, bilirubin) == LiverConsider
      <==> 40.0 < transaminase <= 120.0 && bilirubin <= 2.0
    ensures LiverSection(transaminase, bilirubin) == LiverBilirubinHigh
      <==> 40.0 < transaminase <= 120.0 && bilirubin > 2.0
    ensures LiverSection(transaminase, bilirubin) == LiverTransaminaseHigh <==> transaminase > 120.0
  {
    LiverMessagesDistinct();
    if transaminase <= 40.0 {
    } else if transaminase <= 120.0 {
    } else {
    }
  }

  /** The liver boundaries: exactly 40 U/L starts the statin, exactly 120 U/L
      is still the middle band, and exactly 2.0 mg/dL of bilirubin still allows
      the statin to be considered. */
  lemma LiverBoundaries(bilirubin: real)
    ensures LiverSection(40.0, bilirubin) == LiverStart
    ensures LiverSection(120.0, bilirubin) != LiverTransaminaseHigh
    ensures LiverSection(120.0, 2.0) == LiverConsider
  {
    LiverSectionCases(120.0, bilirubin);
  }

  /** Bilirubin is read only in the middle transaminase band: outside it, any
      two bilirubin values give the same liver paragraph. */
  lemma BilirubinOnlyInMiddleBand(transaminase: real, bilirubin1: real, bilirubin2: real)
    requires !(40.0 < transaminase <= 120.0)
    ensures LiverSection(transaminase, bilirubin1) == LiverSection(transaminase, bilirubin2)
  {
  }

  // The whole recommendation.

  /** Stripping a CK paragraph followed by a liver paragraph removes only the
      liver paragraph's final newline, which leaves a text of the expected
      shape. */
  lemma StripJoinedParagraphs(ckPart: string, liverPart: string)
    requires IsCkParagraph(ckPart) && IsLiverParagraph(liverPart)
    ensures Strip(ckPart + liverPart) == ckPart + liverPart[..|liverPart| - 1]
    ensures IsRecommendationText(ckPart + liverPart[..|liverPart| - 1])
  {
    var joined := ckPart + liverPart;
    assert joined[0] == 'C' && joined[|joined| - 2] == '.';
    StripDropsLastOnly(joined);
    assert joined[..|joined| - 1] == ckPart + liverPart[..|liverPart| - 1];
  }

  /** The returned text: the CK paragraph, blank line included, followed by the
      liver paragraph without its final newline. */
  function Recommendation(ck: real, transaminase: real, bilirubin: real, muscleSymptoms: bool): (r: string)
    ensures r == CkSection(ck, muscleSymptoms)
      + LiverSection(transaminase, bilirubin)[..|LiverSection(transaminase, bilirubin)| - 1]
    ensures IsRecommendationText(r)
  {
    StripJoinedParagraphs(CkSection(ck, muscleSymptoms), LiverSection(transaminase, bilirubin));
    Strip(CkSection(ck, muscleSymptoms) + LiverSection(transaminase, bilirubin))
  }

  /** Outside the middle transaminase band, bilirubin does not change the
      returned text. */
  lemma BilirubinIgnoredOutsideMiddleBand(ck: real, transaminase: real, bilirubin1: real, bilirubin2: real, muscleSymptoms: bool)
    requires !(40.0 < transaminase <= 120.0)
    ensures Recommendation(ck, transaminase, bilirubin1, muscleSymptoms)
         == Recommendation(ck, transaminase, bilirubin2, muscleSymptoms)
  {
    BilirubinOnlyInMiddleBand(transaminase, bilirubin1, bilirubin2);
  }

  /** The CK part of the text depends on CK and symptoms only: changing the
      liver readings leaves it as it was. */
  lemma CkPartIgnoresLiverReadings(ck: real, muscleSymptoms: bool,
                                   transaminase1: real, bilirubin1: real, transaminase2: real, bilirubin2: real)
    ensures var n := |CkSection(ck, muscleSymptoms)|;
      Recommendation(ck, transaminase1, bilirubin1, muscleSymptoms)[..n]
        == Recommendation(ck, transaminase2, bilirubin2, muscleSymptoms)[..n]
        == CkSection(ck, muscleSymptoms)
  {
  }

  /** The liver part of the text depends on transaminase and bilirubin only:
      changing CK or symptoms leaves it as it was. */
  lemma LiverPartIgnoresCkReadings(ck1: real, muscleSymptoms1: bool, ck2: real, muscleSymptoms2: bool,
                                   transaminase: real, bilirubin: real)
    ensures var r1, r2 := Recommendation(ck1, transaminase, bilirubin, muscleSymptoms1),
                          Recommendation(ck2, transaminase, bilirubin, muscleSymptoms2);
      r1[|CkSection(ck1, muscleSymptoms1)|..] == r2[|CkSection(ck2, muscleSymptoms2)|..]
  {
  }

  /** `get_statin_recommendation`: builds the text in a local accumulator, one
      paragraph per assessment, and returns it stripped. */
  method GetStatinRecommendation(ckValue: real, transaminase: real, bilirubin: real, muscleSymptoms: bool)
    returns (r: string)
    ensures r == Recommendation(ckValue, transaminase, bilirubin, muscleSymptoms)
    ensures IsRecommendationText(r)
  {
    var result := "";

    if ckValue > (10 * UlnCk) as real || (muscleSymptoms && ckValue > (10 * UlnCk) as real) {
      result := result + CkWithdrawHydrate;
    } else if (3 * UlnCk) as real < ckValue <= (10 * UlnCk) as real {
      result := result + CkWithdrawConsider;
    } else if ckValue <= (3 * UlnCk) as real {
      if muscleSymptoms {
        result := result + CkWithdrawReinitiate;
      } else {
        result := result + CkContinue;
      }
    }

    assert result == CkSection(ckValue, muscleSymptoms);

    if transaminase <= UlnAlt as real {
      result := result + LiverStart;
    } else if UlnAlt as real < transaminase <= (3 * UlnAlt) as real {
      if bilirubin <= BilirubinThreshold {
        result := result + LiverConsider;
      } else {
        result := result + LiverBilirubinHigh;
      }
    } else {
      result := result + LiverTransaminaseHigh;
    }

    assert result == CkSection(ckValue, muscleSymptoms) + LiverSection(transaminase, bilirubin);
    r := Strip(result);
  }
}
