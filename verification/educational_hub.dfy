/** The chapter player of the educational hub
    (src/app/pages/EducationalHub.tsx): a learner steps through a chapter's
    slides, then answers its one quiz question, retrying as often as needed;
    a correct answer schedules the host's completion callback. The delayed
    callback is recorded as a count of "completion scheduled" events. */
module EducationalHub {
  import opened Wrappers

  datatype Slide = Slide(title: string, content: string, image: Option<string>)

  datatype QuizQuestion = QuizQuestion(question: string, options: seq<string>, correctIndex: int)

  datatype Chapter = Chapter(id: int, title: string, duration: string, slides: seq<Slide>, quiz: QuizQuestion)

  datatype Level = Beginner | Intermediate | Advanced

  datatype LearningModule = LearningModule(
    id: int, title: string, description: string, level: Level,
    progress: int, totalChapters: int, chapters: seq<Chapter>, image: string)

  /** The player's four state variables: `currentSlide`, `showQuiz`,
      `selectedOption` (`number | null`) and `isCorrect` (`boolean | null`). */
  datatype Playback = Playback(currentSlide: int, showQuiz: bool, selectedOption: Option<int>, isCorrect: Option<bool>)

  /** The state a player is created in. */
  const Start: Playback := Playback(0, false, None, None)

  /** The index of the last slide; a chapter without slides stays on index 0. */
  function LastSlide(totalSlides: nat): nat
  {
    if totalSlides == 0 then 0 else totalSlides - 1
  }

  /** The states a player over `totalSlides` slides can be in: the index stays
      within the slides, and the quiz is only ever shown from the last slide. */
  predicate Within(p: Playback, totalSlides: nat)
  {
    && 0 <= p.currentSlide <= LastSlide(totalSlides)
    && (p.showQuiz ==> p.currentSlide == LastSlide(totalSlides))
  }

  /** `handleNext`. Before the last slide it moves one slide on; on the last
      slide it opens the quiz and keeps the index. The answer state is never
      touched. */
  function Advance(p: Playback, totalSlides: nat): (r: Playback)
    requires Within(p, totalSlides)
    ensures Within(r, totalSlides)
    ensures p.currentSlide < totalSlides - 1 ==>
      r.currentSlide == p.currentSlide + 1 && r.showQuiz == p.showQuiz
    ensures p.currentSlide >= totalSlides - 1 ==>
      r.currentSlide == p.currentSlide && r.showQuiz
    ensures r.selectedOption == p.selectedOption && r.isCorrect == p.isCorrect
  {
    if p.currentSlide < totalSlides - 1 then p.(currentSlide := p.currentSlide + 1)
    else p.(showQuiz := true)
  }

  /** `handlePrev`. From the quiz it returns to the last slide; otherwise it
      moves one slide back, and on the first slide does nothing. The answer
      state is never touched. */
  function Retreat(p: Playback, totalSlides: nat): (r: Playback)
    requires Within(p, totalSlides)
    ensures Within(r, totalSlides)
    ensures p.showQuiz ==> !r.showQuiz && r.currentSlide == p.currentSlide == LastSlide(totalSlides)
    ensures !p.showQuiz && p.currentSlide > 0 ==> !r.showQuiz && r.currentSlide == p.currentSlide - 1
    ensures !p.showQuiz && p.currentSlide == 0 ==> r == p
    ensures r.selectedOption == p.selectedOption && r.isCorrect == p.isCorrect
  {
    if p.showQuiz then p.(showQuiz := false)
    else if p.currentSlide > 0 then p.(currentSlide := p.currentSlide - 1)
    else p
  }

  /** An option's `onClick`: the choice replaces any earlier one and the
      verdict is cleared; navigation is unchanged. */
  function SelectOption(p: Playback, idx: int): (r: Playback)
    ensures r.selectedOption == Some(idx) && r.isCorrect == None
    ensures r.currentSlide == p.currentSlide && r.showQuiz == p.showQuiz
  {
    p.(selectedOption := Some(idx), isCorrect := None)
  }

  /** The selection is the quiz's correct index (no selection never is). */
  predicate Passes(p: Playback, quiz: QuizQuestion)
  {
    p.selectedOption == Some(quiz.correctIndex)
  }

  /** `handleQuizSubmit`: the verdict is whether the selection is the correct
      index; nothing else changes. */
  function SubmitAnswer(p: Playback, quiz: QuizQuestion): (r: Playback)
    ensures r.isCorrect == Some(true) <==> Passes(p, quiz)
    ensures r.isCorrect == Some(false) <==> !Passes(p, quiz)
    ensures r.currentSlide == p.currentSlide && r.showQuiz == p.showQuiz
    ensures r.selectedOption == p.selectedOption
  {
    p.(isCorrect := Some(Passes(p, quiz)))
  }

  /** `k` presses of Next. */
  function AdvanceTimes(p: Playback, totalSlides: nat, k: nat): (r: Playback)
    requires Within(p, totalSlides)
    ensures Within(r, totalSlides)
    decreases k
  {
    if k == 0 then p else AdvanceTimes(Advance(p, totalSlides), totalSlides, k - 1)
  }

  /** Walking a chapter of N >= 1 slides from the start: the first N - 1
      presses of Next visit the slides in order without opening the quiz, the
      N-th opens the quiz on the last slide, and further presses change
      nothing. The index never leaves the slides. */
  lemma {:induction false} WalkThrough(totalSlides: nat, k: nat)
    requires totalSlides >= 1
    ensures k < totalSlides ==> AdvanceTimes(Start, totalSlides, k) == Start.(currentSlide := k)
    ensures k >= totalSlides ==>
      AdvanceTimes(Start, totalSlides, k) == Start.(currentSlide := totalSlides - 1, showQuiz := true)
  {
    if k > 0 {
      WalkThrough(totalSlides, k - 1);
      AdvanceLast(Start, totalSlides, k - 1);
    }
  }

  /** One more press of Next after `k` presses from `p`. */
  lemma {:induction false} AdvanceLast(p: Playback, totalSlides: nat, k: nat)
    requires Within(p, totalSlides)
    ensures AdvanceTimes(p, totalSlides, k + 1) == Advance(AdvanceTimes(p, totalSlides, k), totalSlides)
    decreases k
  {
    if k > 0 {
      AdvanceLast(Advance(p, totalSlides), totalSlides, k - 1);
    }
  }

  /** A wrong answer never locks the learner out: choosing the correct option
      afterwards and submitting again is judged correct. */
  lemma RetryAfterMiss(p: Playback, quiz: QuizQuestion, wrong: int)
    requires wrong != quiz.correctIndex
    ensures SubmitAnswer(SelectOption(p, wrong), quiz).isCorrect == Some(false)
    ensures SubmitAnswer(SelectOption(SubmitAnswer(SelectOption(p, wrong), quiz), quiz.correctIndex), quiz).isCorrect
            == Some(true)
  {
  }

  /** The player of one chapter; the host creates a fresh one for every
      chapter it opens. */
  class ChapterPlayer {
    const chapter: Chapter
    var currentSlide: int
    var showQuiz: bool
    var selectedOption: Option<int>
    var isCorrect: Option<bool>
    /** How many delayed `onComplete` calls have been scheduled. */
    var completionsScheduled: nat

    function State(): Playback
      reads this
    {
      Playback(currentSlide, showQuiz, selectedOption, isCorrect)
    }

    ghost predicate Valid()
      reads this
    {
      Within(State(), |chapter.slides|)
    }

    constructor(chapter: Chapter)
      ensures Valid()
      ensures this.chapter == chapter && State() == Start && completionsScheduled == 0
    {
      this.chapter := chapter;
      currentSlide := 0;
      showQuiz := false;
      selectedOption := None;
      isCorrect := None;
      completionsScheduled := 0;
    }

    /** The Next button. */
    method Next()
      requires Valid()
      modifies this
      ensures Valid()
      ensures State() == Advance(old(State()), |chapter.slides|)
      ensures completionsScheduled == old(completionsScheduled)
    {
      if currentSlide < |chapter.slides| - 1 {
        currentSlide := currentSlide + 1;
      } else {
        showQuiz := true;
      }
    }

    /** The Previous button. */
    method Prev()
      requires Valid()
      modifies this
      ensures Valid()
      ensures State() == Retreat(old(State()), |chapter.slides|)
      ensures completionsScheduled == old(completionsScheduled)
    {
      if showQuiz {
        showQuiz := false;
      } else if currentSlide > 0 {
        currentSlide := currentSlide - 1;
      }
    }

    /** Clicking the quiz option at index `idx`. */
    method Choose(idx: int)
      requires Valid()
      modifies this
      ensures Valid()
      ensures State() == SelectOption(old(State()), idx)
      ensures completionsScheduled == old(completionsScheduled)
    {
      selectedOption := Some(idx);
      isCorrect := None;
    }

    /** "Check Answer": records the verdict, and schedules one completion
        exactly when the answer is correct. */
    method Submit()
      requires Valid()
      modifies this
      ensures Valid()
      ensures State() == SubmitAnswer(old(State()), chapter.quiz)
      ensures completionsScheduled == old(completionsScheduled) + if Passes(old(State()), chapter.quiz) then 1 else 0
    {
      if selectedOption == Some(chapter.quiz.correctIndex) {
        isCorrect := Some(true);
        completionsScheduled := completionsScheduled + 1;
      } else {
        isCorrect := Some(false);
      }
    }

    /** "Check Answer" is enabled exactly when an option is selected. */
    function SubmitEnabled(): (b: bool)
      reads this
      ensures b <==> selectedOption.Some?
    {
      selectedOption != None
    }

    /** Previous is disabled exactly when pressing it would change nothing:
        on the first slide outside the quiz. */
    function PrevEnabled(): (b: bool)
      reads this
      requires Valid()
      ensures b <==> Retreat(State(), |chapter.slides|) != State()
    {
      !(currentSlide == 0 && !showQuiz)
    }
  }

  /** The two-slide walk-through: Next, Next opens the quiz; a wrong answer is
      judged incorrect and schedules nothing; the right answer is judged
      correct and schedules one completion. The check button stays enabled
      after a correct answer, and pressing it again schedules a second one. */
  method TwoSlideWalkThrough(a: Slide, b: Slide, q: QuizQuestion)
    requires q.correctIndex == 0
  {
    var player := new ChapterPlayer(Chapter(1, "Chapter", "5 min", [a, b], q));
    player.Next();
    assert player.currentSlide == 1 && !player.showQuiz;
    player.Next();
    assert player.currentSlide == 1 && player.showQuiz;
    player.Choose(1);
    player.Submit();
    assert player.isCorrect == Some(false) && player.completionsScheduled == 0;
    player.Choose(0);
    assert player.SubmitEnabled();
    player.Submit();
    assert player.isCorrect == Some(true) && player.completionsScheduled == 1;
    player.Submit();
    assert player.completionsScheduled == 2;
  }

  datatype HubTab = Modules | Resources

  /** The hub page that hosts the player. */
  class Hub {
    var activeTab: HubTab
    var activeModule: Option<LearningModule>
    var activeChapter: Option<Chapter>

    constructor()
      ensures activeTab == Modules && activeModule == None && activeChapter == None
    {
      activeTab := Modules;
      activeModule := None;
      activeChapter := None;
    }

    /** A tab button: switches the tab and leaves the module view. */
    method SelectTab(tab: HubTab)
      modifies this
      ensures activeTab == tab && activeModule == None && activeChapter == old(activeChapter)
    {
      activeTab := tab;
      activeModule := None;
    }

    /** A module card: opens that module's chapter list. */
    method OpenModule(m: LearningModule)
      modifies this
      ensures activeModule == Some(m)
      ensures activeTab == old(activeTab) && activeChapter == old(activeChapter)
    {
      activeModule := Some(m);
    }

    /** "Back to Modules". */
    method CloseModule()
      modifies this
      ensures activeModule == None
      ensures activeTab == old(activeTab) && activeChapter == old(activeChapter)
    {
      activeModule := None;
    }

    /** A chapter's start button: mounts a player for it. */
    method OpenChapter(ch: Chapter)
      modifies this
      ensures activeChapter == Some(ch)
      ensures activeTab == old(activeTab) && activeModule == old(activeModule)
    {
      activeChapter := Some(ch);
    }

    /** The player's close button: the chapter is dropped with its progress. */
    method CloseChapter()
      modifies this
      ensures activeChapter == None
      ensures activeTab == old(activeTab) && activeModule == old(activeModule)
    {
      activeChapter := None;
    }

    /** `handleChapterComplete`, run when a scheduled completion fires: the
        player is unmounted; the tab and the module stay. */
    method ChapterComplete()
      modifies this
      ensures activeChapter == None
      ensures activeTab == old(activeTab) && activeModule == old(activeModule)
    {
      activeChapter := None;
    }
  }
}
