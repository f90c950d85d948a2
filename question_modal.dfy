/** The question dialog of components/QuestionModal.tsx: the phase machine
    ready -> countdown -> reveal_answer -> answer_shown with its one-second
    tick, the choice buttons that only work during the countdown, and the
    reading of the answer key. */
module QuestionModal {
  import opened Util
  import opened Bank

  datatype Phase = Ready | Countdown | RevealAnswer | AnswerShown

  /** The dialog's state cells: phase, seconds left and the chosen letter. */
  datatype View = View(phase: Phase, timeLeft: int, selected: Option<string>)

  /** The labels of the four choices. */
  const ANSWER_LABELS: seq<string> := ["A", "B", "C", "D"]

  /** The dialog as it opens: ready with the full time, or resuming a
      recovered timer (already expired when it has nothing left). */
  function InitialView(recoveredTimeLeft: Option<int>, waktu: int): (v: View)
    ensures recoveredTimeLeft.None? ==> v == View(Ready, waktu, None)
    ensures recoveredTimeLeft.Some? && recoveredTimeLeft.value <= 0 ==> v == View(RevealAnswer, 0, None)
    ensures recoveredTimeLeft.Some? && recoveredTimeLeft.value > 0 ==>
              v == View(Countdown, recoveredTimeLeft.value, None)
  {
    match recoveredTimeLeft
    case None => View(Ready, waktu, None)
    case Some(r) => View(if r <= 0 then RevealAnswer else Countdown, if r < 0 then 0 else r, None)
  }

  /** What the user or the interval can do. */
  datatype Event = StartTimer | Tick | ShowAnswer | ChooseAnswer(letter: string)

  /** `startCountdown(startFrom)` */
  function StartCountdown(v: View, startFrom: int): View {
    v.(phase := Countdown, timeLeft := startFrom)
  }

  /** One event. Each is live only where the source can raise it: Start only
      in ready (its button), the tick only while the countdown's interval runs,
      Show Answer only in reveal_answer (its button), a choice only while the
      choice buttons are enabled in countdown. Elsewhere nothing changes. */
  function Step(v: View, e: Event, waktu: int): (r: View)
    ensures r.phase == AnswerShown ==> v.phase in {RevealAnswer, AnswerShown}
    ensures r.selected != v.selected ==> v.phase == Countdown && e.ChooseAnswer? && r.selected == Some(e.letter)
    ensures r.phase == RevealAnswer && v.phase != RevealAnswer ==> v.phase == Countdown && e.Tick? && r.timeLeft == 0
  {
    match e
    case StartTimer => if v.phase == Ready then StartCountdown(v, waktu) else v
    case Tick =>
      if v.phase != Countdown then v
      else if v.timeLeft <= 1 then v.(phase := RevealAnswer, timeLeft := 0)
      else v.(timeLeft := v.timeLeft - 1)
    case ShowAnswer => if v.phase == RevealAnswer then v.(phase := AnswerShown) else v
    case ChooseAnswer(letter) => if v.phase == Countdown then v.(selected := Some(letter)) else v
  }

  /** Once time is up it stays up: in reveal_answer and answer_shown no time is left. */
  predicate TimeUpWhenRevealed(v: View) {
    v.phase in {RevealAnswer, AnswerShown} ==> v.timeLeft == 0
  }

  /** The dialog opens in a state where the invariant holds, and the mount
      effect (restarting a recovered countdown, or moving to reveal) leaves it
      exactly as it opened. */
  lemma InitialViewSound(recoveredTimeLeft: Option<int>, waktu: int)
    ensures TimeUpWhenRevealed(InitialView(recoveredTimeLeft, waktu))
    ensures recoveredTimeLeft.Some? && recoveredTimeLeft.value > 0 ==>
              StartCountdown(InitialView(recoveredTimeLeft, waktu), recoveredTimeLeft.value)
                == InitialView(recoveredTimeLeft, waktu)
    ensures recoveredTimeLeft.Some? && recoveredTimeLeft.value <= 0 ==>
              InitialView(recoveredTimeLeft, waktu).(phase := RevealAnswer) == InitialView(recoveredTimeLeft, waktu)
  {
  }

  /** Every event keeps the invariant, so the answer is never shown while time is left. */
  lemma StepKeepsTimeUp(v: View, e: Event, waktu: int)
    requires TimeUpWhenRevealed(v)
    ensures TimeUpWhenRevealed(Step(v, e, waktu))
  {
  }

  /** The dialog after a sequence of events. */
  function Run(v: View, events: seq<Event>, waktu: int): View
    decreases |events|
  {
    if events == [] then v else Step(Run(v, events[..|events| - 1], waktu), events[|events| - 1], waktu)
  }

  /** However the user and the clock act after the dialog opens, the answer is
      only revealed once no time is left. */
  lemma {:induction false} RunKeepsTimeUp(recoveredTimeLeft: Option<int>, waktu: int, events: seq<Event>)
    ensures TimeUpWhenRevealed(Run(InitialView(recoveredTimeLeft, waktu), events, waktu))
    decreases |events|
  {
    if events == [] {
      InitialViewSound(recoveredTimeLeft, waktu);
    } else {
      RunKeepsTimeUp(recoveredTimeLeft, waktu, events[..|events| - 1]);
      StepKeepsTimeUp(Run(InitialView(recoveredTimeLeft, waktu), events[..|events| - 1], waktu), events[|events| - 1], waktu);
    }
  }

  /** The dialog after `k` ticks. */
  function Ticks(v: View, k: nat, waktu: int): View {
    if k == 0 then v else Step(Ticks(v, k - 1, waktu), Tick, waktu)
  }

  /** A countdown from `t` seconds shows `t - k` after `k < t` ticks and reaches
      reveal_answer with 0 left on the `t`-th. */
  lemma {:induction false} CountdownRuns(t: int, k: nat, selected: Option<string>, waktu: int)
    requires 1 <= t && k <= t
    ensures k < t ==> Ticks(View(Countdown, t, selected), k, waktu) == View(Countdown, t - k, selected)
    ensures k == t ==> Ticks(View(Countdown, t, selected), k, waktu) == View(RevealAnswer, 0, selected)
  {
    if k > 0 {
      CountdownRuns(t, k - 1, selected, waktu);
    }
  }

  /** `isUrgent` */
  predicate IsUrgent(timeLeft: int) {
    timeLeft <= 5 && timeLeft > 0
  }

  /** A countdown from `t` looks urgent exactly over its last five ticks before time runs out. */
  lemma UrgentAtTheEnd(t: int, k: nat, selected: Option<string>, waktu: int)
    requires 1 <= t && k <= t
    ensures IsUrgent(Ticks(View(Countdown, t, selected), k, waktu).timeLeft) <==> t - 5 <= k < t
  {
    CountdownRuns(t, k, selected, waktu);
  }

  // ---------------------------------------------------------------------------
  // The answer key
  // ---------------------------------------------------------------------------

  /** `s.split('.')[0]`: everything before the first '.', or all of `s`. */
  function BeforeDot(s: string): (r: string)
    ensures |r| <= |s| && r == s[..|r|]
    ensures '.' !in r
    ensures |r| < |s| ==> s[|r|] == '.'
  {
    if s == [] || s[0] == '.' then [] else [s[0]] + BeforeDot(s[1..])
  }

  /** `correctLetter`: the key up to its first dot, without surrounding whitespace. */
  function CorrectLetter(jawaban: string): (r: string)
    ensures '.' !in r
    ensures r == [] || (!IsJsWhitespace(r[0]) && !IsJsWhitespace(r[|r| - 1]))
  {
    Trim(BeforeDot(jawaban))
  }

  /** `ANSWER_LABELS.indexOf(letter)`: the position of the label, or -1. */
  function LabelIndex(letter: string): (i: int)
    ensures -1 <= i < |ANSWER_LABELS|
    ensures i >= 0 ==> ANSWER_LABELS[i] == letter
    ensures i == -1 <==> letter !in ANSWER_LABELS
  {
    if letter == "A" then 0
    else if letter == "B" then 1
    else if letter == "C" then 2
    else if letter == "D" then 3
    else -1
  }

  /** `correctIndex`: the choice whose label is the key's letter, or -1 when the
      letter is no label. */
  function CorrectIndex(jawaban: string): (i: int)
    ensures -1 <= i < |ANSWER_LABELS|
    ensures i >= 0 ==> ANSWER_LABELS[i] == CorrectLetter(jawaban)
    ensures i == -1 <==> CorrectLetter(jawaban) !in ANSWER_LABELS
  {
    LabelIndex(CorrectLetter(jawaban))
  }

  /** Whatever follows the first dot plays no part: a dot-free `p` followed by a
      dot (or by nothing) splits off as `p`. */
  lemma BeforeDotOfPrefix(p: string, rest: string)
    requires '.' !in p && (rest == [] || rest[0] == '.')
    ensures BeforeDot(p + rest) == p
  {
    var s, r := p + rest, BeforeDot(p + rest);
    assert r == s[..|p|] == p;
  }

  /** A key made of one of the labels, alone or followed by a dot and any text
      ("B. Jakarta"), marks that label's choice. */
  lemma KeyStartingWithLabel(k: int, rest: string)
    requires 0 <= k < |ANSWER_LABELS| && (rest == [] || rest[0] == '.')
    ensures CorrectIndex(ANSWER_LABELS[k] + rest) == k
  {
    LabelShape(k);
    LetterKey(ANSWER_LABELS[k], rest);
  }

  /** A letter alone or followed by a dot and any text reads as that letter. */
  lemma LetterKey(letter: string, rest: string)
    requires |letter| == 1 && IsLetter(letter[0]) && (rest == [] || rest[0] == '.')
    ensures CorrectLetter(letter + rest) == letter
  {
    BeforeDotOfPrefix(letter, rest);
    TrimLetter(letter);
  }

  predicate IsLetter(c: char) {
    'A' <= c <= 'Z' || 'a' <= c <= 'z'
  }

  lemma LabelShape(k: int)
    requires 0 <= k < |ANSWER_LABELS|
    ensures |ANSWER_LABELS[k]| == 1 && IsLetter(ANSWER_LABELS[k][0])
    ensures LabelIndex(ANSWER_LABELS[k]) == k
  {
  }

  /** A single letter has nothing to trim. */
  lemma TrimLetter(s: string)
    requires |s| == 1 && IsLetter(s[0])
    ensures Trim(s) == s
  {
  }

  /** The letter is case-sensitive: a lower-case key such as "b. jakarta" matches no choice. */
  lemma LowerCaseKey(letter: string, rest: string)
    requires |letter| == 1 && 'a' <= letter[0] <= 'z' && (rest == [] || rest[0] == '.')
    ensures CorrectIndex(letter + rest) == -1
  {
    LetterKey(letter, rest);
    assert letter !in ANSWER_LABELS by {
      forall k | 0 <= k < |ANSWER_LABELS|
        ensures ANSWER_LABELS[k] != letter
      {
        LabelShape(k);
      }
    }
  }

  /** `isCorrect` for the `i`-th of the four choices: it is marked as the right one. */
  predicate MarkedCorrect(v: View, jawaban: string, i: int) {
    0 <= i < |ANSWER_LABELS| && v.phase == AnswerShown && i == CorrectIndex(jawaban)
  }

  /** Only the choice whose label is the key's letter is ever marked, and only
      once time is up; a key that names no label marks nothing. */
  lemma MarkedOnlyWhenTimeUp(v: View, jawaban: string, i: int)
    requires TimeUpWhenRevealed(v)
    ensures MarkedCorrect(v, jawaban, i) ==>
              v.timeLeft == 0 && 0 <= i < 4 && ANSWER_LABELS[i] == CorrectLetter(jawaban)
    ensures CorrectLetter(jawaban) !in ANSWER_LABELS ==> !MarkedCorrect(v, jawaban, i)
  {
    var letter := CorrectLetter(jawaban);
    assert CorrectIndex(jawaban) == LabelIndex(letter);
  }

  // ---------------------------------------------------------------------------
  // The component
  // ---------------------------------------------------------------------------

  class Modal {
    const question: Question
    var phase: Phase
    var timeLeft: int
    var selected: Option<string>

    function CurrentView(): View
      reads this
    {
      View(phase, timeLeft, selected)
    }

    constructor(q: Question, recoveredTimeLeft: Option<int>)
      ensures question == q
      ensures CurrentView() == InitialView(recoveredTimeLeft, q.waktu)
    {
      question := q;
      var v := InitialView(recoveredTimeLeft, q.waktu);
      phase, timeLeft, selected := v.phase, v.timeLeft, v.selected;
    }

    /** The Start button: hands the question's time to `onTimerStart` and starts the countdown. */
    method StartTimer() returns (persisted: Option<int>)
      modifies this
      ensures CurrentView() == Step(old(CurrentView()), Event.StartTimer, question.waktu)
      ensures persisted == (if old(phase) == Ready then Some(question.waktu) else None)
    {
      if phase != Ready {
        return None;
      }
      persisted := Some(question.waktu);
      phase := Countdown;
      timeLeft := question.waktu;
    }

    /** One interval tick. */
    method Tick()
      modifies this
      ensures CurrentView() == Step(old(CurrentView()), Event.Tick, question.waktu)
    {
      if phase != Countdown {
        return;
      }
      if timeLeft <= 1 {
        phase := RevealAnswer;
        timeLeft := 0;
      } else {
        timeLeft := timeLeft - 1;
      }
    }

    /** `handleShowAnswer`, reachable from the reveal button. */
    method ShowAnswer()
      modifies this
      ensures CurrentView() == Step(old(CurrentView()), Event.ShowAnswer, question.waktu)
    {
      if phase == RevealAnswer {
        phase := AnswerShown;
      }
    }

    method ChooseAnswer(letter: string)
      modifies this
      ensures CurrentView() == Step(old(CurrentView()), Event.ChooseAnswer(letter), question.waktu)
    {
      if phase == Countdown {
        selected := Some(letter);
      }
    }
  }
}
