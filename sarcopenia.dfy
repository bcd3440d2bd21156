/**
 * The sarcopenia risk classifier of the assessment page: three threshold
 * ladders turn grip strength (kg), walking speed (m/s) and a self-assessed
 * muscle-mass indicator into sub-scores 1..3; their sum picks phase 3 (good),
 * 2 (moderate) or 1 (needs attention), and each phase recommends three fixed
 * training videos. The page keeps the last result and the video being played.
 */
module SarcopeniaAssessment {
  import opened Optional

  /** A phase number: 1 needs attention, 2 moderate concern, 3 good condition. */
  type Phase = p: int | 1 <= p <= 3 witness 1

  datatype AssessmentResult = AssessmentResult(phase: Phase, titleKey: string, descKey: string, color: string)

  datatype PhaseVideo = PhaseVideo(id: nat, youtubeId: string, titleEn: string, titleHi: string)

  // ---------------------------------------------------------------------------
  // Sub-scores

  function GripScore(kg: real): (s: int)
    ensures 1 <= s <= 3
    ensures s == 3 <==> kg >= 28.0
    ensures s == 1 <==> kg < 20.0
  {
    if kg >= 28.0 then 3 else if kg >= 20.0 then 2 else 1
  }

  function WalkingScore(metresPerSecond: real): (s: int)
    ensures 1 <= s <= 3
    ensures s == 3 <==> metresPerSecond >= 0.8
    ensures s == 1 <==> metresPerSecond < 0.6
  {
    if metresPerSecond >= 0.8 then 3 else if metresPerSecond >= 0.6 then 2 else 1
  }

  function MuscleMassScore(indicator: real): (s: int)
    ensures 1 <= s <= 3
    ensures s == 3 <==> indicator >= 7.0
    ensures s == 1 <==> indicator < 4.0
  {
    if indicator >= 7.0 then 3 else if indicator >= 4.0 then 2 else 1
  }

  /** The accumulated `score`: the sum of the three sub-scores. */
  function Score(grip: real, walking: real, mass: real): (score: int)
    ensures 3 <= score <= 9
  {
    GripScore(grip) + WalkingScore(walking) + MuscleMassScore(mass)
  }

  // ---------------------------------------------------------------------------
  // Phase selection

  /** The result record for each phase: its translation keys and its colour class. */
  function ResultFor(p: Phase): AssessmentResult
  {
    match p
    case 3 => AssessmentResult(3, "phase3Title", "phase3Desc", "text-success")
    case 2 => AssessmentResult(2, "phase2Title", "phase2Desc", "text-warning")
    case 1 => AssessmentResult(1, "phase1Title", "phase1Desc", "text-destructive")
  }

  /** The title and description keys name the same phase as the phase number. */
  predicate KeysAgree(r: AssessmentResult)
  {
    var digit := ['0' + r.phase as char];
    r.titleKey == "phase" + digit + "Title" && r.descKey == "phase" + digit + "Desc"
  }

  function CalculatePhase(grip: real, walking: real, mass: real): (r: AssessmentResult)
    ensures r.phase == 3 <==> Score(grip, walking, mass) >= 8
    ensures r.phase == 2 <==> 5 <= Score(grip, walking, mass) < 8
    ensures r.phase == 1 <==> Score(grip, walking, mass) < 5
    ensures KeysAgree(r)
    ensures r.color == (if r.phase == 3 then "text-success" else if r.phase == 2 then "text-warning" else "text-destructive")
  {
    var score := Score(grip, walking, mass);
    if score >= 8 then ResultFor(3)
    else if score >= 5 then ResultFor(2)
    else ResultFor(1)
  }

  /** Every threshold is inclusive: a value exactly on a boundary earns the higher sub-score. */
  lemma BoundariesInclusive()
    ensures GripScore(28.0) == 3 && GripScore(20.0) == 2
    ensures WalkingScore(0.8) == 3 && WalkingScore(0.6) == 2
    ensures MuscleMassScore(7.0) == 3 && MuscleMassScore(4.0) == 2
  {
  }

  /** Raising any measurement never lowers the phase. */
  lemma PhaseMonotone(grip: real, walking: real, mass: real, grip': real, walking': real, mass': real)
    requires grip <= grip' && walking <= walking' && mass <= mass'
    ensures CalculatePhase(grip, walking, mass).phase <= CalculatePhase(grip', walking', mass').phase
  {
    assert GripScore(grip) <= GripScore(grip');
    assert WalkingScore(walking) <= WalkingScore(walking');
    assert MuscleMassScore(mass) <= MuscleMassScore(mass');
  }

  /** All three measurements at or above their upper thresholds give phase 3. */
  lemma HealthyIsPhase3(grip: real, walking: real, mass: real)
    requires grip >= 28.0 && walking >= 0.8 && mass >= 7.0
    ensures CalculatePhase(grip, walking, mass).phase == 3
  {
  }

  /** The two worked examples of the input placeholders and the lowest scores. */
  lemma WorkedExamples()
    ensures Score(25.5, 0.85, 6.0) == 7 && CalculatePhase(25.5, 0.85, 6.0).phase == 2
    ensures Score(15.0, 0.5, 2.0) == 3 && CalculatePhase(15.0, 0.5, 2.0).phase == 1
  {
  }

  // ---------------------------------------------------------------------------
  // Recommended videos

  function PhaseVideos(p: Phase): (videos: seq<PhaseVideo>)
    ensures |videos| == 3
    ensures forall i :: 0 <= i < 3 ==> videos[i].id == 3 * (p - 1) + i + 1
  {
    match p
    case 1 => [
      PhaseVideo(1, "aUaInS6HIGo", "Beginner Chair Exercises", "शुरुआती कुर्सी व्यायाम"),
      PhaseVideo(2, "5N1JxDpT-wk", "Gentle Stretching Routine", "हल्की स्ट्रेचिंग दिनचर्या"),
      PhaseVideo(3, "PFkDJI64zAk", "Balance Training Basics", "संतुलन प्रशिक्षण की मूल बातें")]
    case 2 => [
      PhaseVideo(4, "uGEL8lmZFXc", "Resistance Band Workouts", "रेजिस्टेंस बैंड वर्कआउट"),
      PhaseVideo(5, "GIBXMIoGXWU", "Core Strengthening Exercises", "कोर स्ट्रेंथनिंग एक्सरसाइज"),
      PhaseVideo(6, "T6Se7kOJdSQ", "Walking Program Guide", "वॉकिंग प्रोग्राम गाइड")]
    case 3 => [
      PhaseVideo(7, "4J9G8eWu5Is", "Weight Training for Bone Health", "हड्डी स्वास्थ्य के लिए वेट ट्रेनिंग"),
      PhaseVideo(8, "RLHdkV8WWQI", "High-Intensity Interval Training", "हाई-इंटेंसिटी इंटरवल ट्रेनिंग"),
      PhaseVideo(9, "bSvovGB_O44", "Advanced Balance & Agility", "एडवांस्ड बैलेंस और एजिलिटी")]
  }

  /** `videos`: the current result's list, or nothing before the first submission. */
  function VideosFor(result: Option<AssessmentResult>): (videos: seq<PhaseVideo>)
    ensures result.None? ==> videos == []
    ensures result.Some? ==> |videos| == 3
    ensures forall i :: 0 <= i < |videos| ==> videos[i].id == 3 * (result.value.phase - 1) + i + 1
  {
    match result
    case None => []
    case Some(r) => PhaseVideos(r.phase)
  }

  /** No video is recommended for two different phases. */
  lemma PhaseVideosDisjoint(p: Phase, q: Phase, i: nat, j: nat)
    requires p != q && i < 3 && j < 3
    ensures PhaseVideos(p)[i].id != PhaseVideos(q)[j].id
  {
  }

  // ---------------------------------------------------------------------------
  // Form submission

  /** `parseFloat(field) || 0`: an unparseable field (`NaN`, here `None`) or zero becomes 0. */
  function ParseOrZero(parsed: Option<real>): (x: real)
    ensures parsed.None? ==> x == 0.0
    ensures parsed.Some? ==> x == parsed.value
  {
    parsed.GetOr(0.0)
  }

  /** The state of the assessment page. */
  class AssessmentPage {
    var result: Option<AssessmentResult>
    var selectedVideo: Option<PhaseVideo>

    constructor ()
      ensures result == None && selectedVideo == None
    {
      result := None;
      selectedVideo := None;
    }

    /** The list of recommended videos rendered below the result. */
    function Videos(): (videos: seq<PhaseVideo>)
      reads this
      ensures videos == VideosFor(result)
    {
      VideosFor(result)
    }

    /** `handleSubmit`, given what `parseFloat` made of the three fields. */
    method HandleSubmit(grip: Option<real>, walking: Option<real>, mass: Option<real>)
      modifies this`result
      ensures result == Some(CalculatePhase(ParseOrZero(grip), ParseOrZero(walking), ParseOrZero(mass)))
      ensures |Videos()| == 3
    {
      var phase := CalculatePhase(ParseOrZero(grip), ParseOrZero(walking), ParseOrZero(mass));
      result := Some(phase);
    }

    method SelectVideo(video: PhaseVideo)
      modifies this`selectedVideo
      ensures selectedVideo == Some(video)
    {
      selectedVideo := Some(video);
    }

    /** Closing the player dialog. */
    method CloseVideo()
      modifies this`selectedVideo
      ensures selectedVideo == None
    {
      selectedVideo := None;
    }
  }

  /** Submitting three empty (unparseable) fields never fails: it gives phase 1. */
  lemma EmptyFormIsPhase1()
    ensures CalculatePhase(ParseOrZero(None), ParseOrZero(None), ParseOrZero(None)).phase == 1
  {
  }

  /** A fresh page shows no videos; submitting it with every field empty gives phase 1
    * and its three videos. */
  method SubmitEmptyForm() returns (page: AssessmentPage)
    ensures page.result.Some? && page.result.value.phase == 1
    ensures |page.Videos()| == 3 && page.Videos()[0].id == 1
  {
    page := new AssessmentPage();
    assert page.Videos() == [];
    page.HandleSubmit(None, None, None);
  }
}
