/**
 * The page's view-state controller: the overlay flags, the contact form's
 * four-state status, the two lists the visitor can append to, and the
 * animated headline.
 */
module App {
  import opened AppData
  import Text
  import Headline

  datatype Option<T> = None | Some(value: T)

  /** The contact form's submission state. */
  datatype SubmitState = Idle | Submitting | Success | Error

  /** The status line under the contact form. */
  datatype FormStatus = FormStatus(state: SubmitState, message: string)

  /** The message the page shows with each submission state. */
  function StatusMessage(state: SubmitState): (message: string)
    ensures message == "" <==> state == Idle
  {
    match state
    case Idle => ""
    case Submitting => "Sending message..."
    case Success => "Message sent successfully!"
    case Error => "Something went wrong. Please try again."
  }

  /** The values of the three reactive forms; every control holds text. */
  datatype ContactForm = ContactForm(name: string, email: string, subject: string, message: string)
  datatype ProjectForm = ProjectForm(title: string, imgSrc: string, tags: string, problem: string, process: string, outcome: string)
  datatype ExperienceForm = ExperienceForm(role: string, company: string, date: string, points: string)

  const EmptyContactForm := ContactForm("", "", "", "")
  const EmptyProjectForm := ProjectForm("", "", "", "", "", "")
  const EmptyExperienceForm := ExperienceForm("", "", "", "")

  /**
   * Every contact control is required, and the email control must also have
   * the shape of an address; that shape check is library code, so it comes
   * in as emailWellFormed.
   */
  predicate ContactFormValid(f: ContactForm, emailWellFormed: bool) {
    f.name != [] && f.email != [] && emailWellFormed && f.subject != [] && f.message != []
  }

  /** Every add-project control is required. */
  predicate ProjectFormValid(f: ProjectForm) {
    f.title != [] && f.imgSrc != [] && f.tags != [] && f.problem != [] && f.process != [] && f.outcome != []
  }

  /** Every add-experience control is required. */
  predicate ExperienceFormValid(f: ExperienceForm) {
    f.role != [] && f.company != [] && f.date != [] && f.points != []
  }

  /** A form just reset is not valid, so it cannot be submitted again before it is refilled. */
  lemma EmptyFormsInvalid(emailWellFormed: bool)
    ensures !ContactFormValid(EmptyContactForm, emailWellFormed)
    ensures !ProjectFormValid(EmptyProjectForm)
    ensures !ExperienceFormValid(EmptyExperienceForm)
  {
  }

  /** The project a valid add-project form describes: tags are split on commas and trimmed. */
  function BuildProject(f: ProjectForm): (p: Project)
    ensures p.title == f.title && p.imgSrc == f.imgSrc
    ensures p.caseStudy == CaseStudy(f.problem, f.process, f.outcome)
    ensures |p.tags| == multiset(f.tags)[','] + 1
    ensures forall i :: 0 <= i < |p.tags| ==> Text.IsTrimmed(p.tags[i]) && ',' !in p.tags[i]
  {
    Project(f.title, f.imgSrc, Text.ParseTags(f.tags), CaseStudy(f.problem, f.process, f.outcome))
  }

  /** The side a new timeline entry goes on: opposite the last entry's, and left on an empty timeline. */
  function NextAlign(experiences: seq<Experience>): (align: Align)
    ensures |experiences| > 0 ==> align != experiences[|experiences| - 1].align
    ensures experiences == [] ==> align == Left
  {
    if |experiences| > 0 && experiences[|experiences| - 1].align == Left then Right else Left
  }

  /** The experience a valid add-experience form describes, drawn on the given side. */
  function BuildExperience(f: ExperienceForm, align: Align): (e: Experience)
    ensures e.role == f.role && e.company == f.company && e.date == f.date && e.align == align
    ensures forall i :: 0 <= i < |e.points| ==>
      e.points[i] != [] && Text.IsTrimmed(e.points[i]) && '\n' !in e.points[i]
  {
    Experience(f.role, f.company, f.date, align, Text.ParsePoints(f.points))
  }

  /** Appending an entry on the side NextAlign picks keeps the timeline alternating. */
  lemma NextAlignKeepsAlternation(experiences: seq<Experience>, e: Experience)
    requires Alternates(experiences)
    requires e.align == NextAlign(experiences)
    ensures Alternates(experiences + [e])
  {
    var all := experiences + [e];
    forall i | 0 < i < |all| ensures all[i].align != all[i - 1].align {
      if i == |experiences| {
        assert all[i - 1] == experiences[|experiences| - 1];
      }
    }
  }

  /** The side opposite the given one. */
  function Flip(a: Align): Align {
    if a == Left then Right else Left
  }

  /** An alternating timeline is fixed by its first entry: even places share its side, odd places take the other. */
  lemma {:induction false} AlternationIsParity(experiences: seq<Experience>, i: nat)
    requires Alternates(experiences)
    requires i < |experiences|
    ensures experiences[i].align == if i % 2 == 0 then experiences[0].align else Flip(experiences[0].align)
  {
    if i > 0 {
      AlternationIsParity(experiences, i - 1);
    }
  }

  /** The seed timeline ends on the left, so the first entry a visitor adds goes on the right. */
  lemma SeedNextAlignIsRight()
    ensures Alternates(InitialExperiences())
    ensures NextAlign(InitialExperiences()) == Right
  {
  }

  /** The scroll offset past which the back-to-top button shows. */
  const BackToTopThreshold: real := 300.0

  class AppComponent {
    const isBrowser: bool
    const headlineParts: seq<seq<HeadlinePart>>

    var mobileNavOpen: bool
    var showBackToTop: bool
    var formStatus: FormStatus
    var selectedProject: Option<Project>
    var lightboxImageUrl: Option<string>
    var showAddProjectModal: bool
    var showAddExperienceModal: bool

    var contactForm: ContactForm
    var newProjectForm: ProjectForm
    var newExperienceForm: ExperienceForm

    var projects: seq<Project>
    var experiences: seq<Experience>

    /** How many sent messages are still waiting for the form service's answer. */
    ghost var pending: nat

    /**
     * The timeline alternates, the status line shows the message of its
     * state, an idle form has no message in flight, and a submitting one has.
     */
    ghost predicate Valid()
      reads this
    {
      && Alternates(experiences)
      && formStatus.message == StatusMessage(formStatus.state)
      && (formStatus.state == Idle ==> pending == 0)
      && (formStatus.state == Submitting ==> pending > 0)
    }

    /** The lightbox shows when its URL is set and non-empty; an empty URL counts as closed. */
    predicate LightboxOpen(): (open: bool)
      reads this
      ensures lightboxImageUrl == None ==> !open
      ensures lightboxImageUrl == Some("") ==> !open
    {
      lightboxImageUrl.Some? && lightboxImageUrl.value != ""
    }

    /** How many of the overlays the escape key closes are open. */
    function OpenOverlayCount(): nat
      reads this
    {
      (if LightboxOpen() then 1 else 0)
      + (if selectedProject.Some? then 1 else 0)
      + (if showAddProjectModal then 1 else 0)
      + (if showAddExperienceModal then 1 else 0)
    }

    /** The page starts on the seed content with every overlay closed and the status idle. */
    constructor(isBrowser: bool)
      ensures this.isBrowser == isBrowser && headlineParts == InitialHeadlineParts()
      ensures projects == InitialProjects() && experiences == InitialExperiences()
      ensures !mobileNavOpen && !showBackToTop && !showAddProjectModal && !showAddExperienceModal
      ensures selectedProject == None && lightboxImageUrl == None
      ensures formStatus == FormStatus(Idle, "") && pending == 0
      ensures contactForm == EmptyContactForm && newProjectForm == EmptyProjectForm
      ensures newExperienceForm == EmptyExperienceForm
      ensures Valid() && OpenOverlayCount() == 0
    {
      this.isBrowser := isBrowser;
      headlineParts := InitialHeadlineParts();
      mobileNavOpen := false;
      showBackToTop := false;
      formStatus := FormStatus(Idle, "");
      selectedProject := None;
      lightboxImageUrl := None;
      showAddProjectModal := false;
      showAddExperienceModal := false;
      contactForm := EmptyContactForm;
      newProjectForm := EmptyProjectForm;
      newExperienceForm := EmptyExperienceForm;
      projects := InitialProjects();
      experiences := InitialExperiences();
      pending := 0;
    }

    /**
     * In a browser the back-to-top button shows exactly when the page is
     * scrolled strictly past the threshold; elsewhere nothing happens. The
     * offset is a browser number, so it may be fractional.
     */
    method OnWindowScroll(scrollY: real)
      modifies this`showBackToTop
      ensures isBrowser ==> (showBackToTop <==> scrollY > BackToTopThreshold)
      ensures !isBrowser ==> showBackToTop == old(showBackToTop)
    {
      if !isBrowser {
        return;
      }
      showBackToTop := scrollY > BackToTopThreshold;
    }

    /** Flips the mobile menu. */
    method ToggleMobileNav()
      modifies this`mobileNavOpen
      ensures mobileNavOpen == !old(mobileNavOpen)
    {
      mobileNavOpen := !mobileNavOpen;
    }

    /** Navigating to a section always leaves the mobile menu closed. */
    method ScrollTo(sectionId: string)
      modifies this`mobileNavOpen
      ensures !mobileNavOpen
    {
      mobileNavOpen := false;
    }

    /**
     * Submitting an invalid contact form does nothing; a valid one sends the
     * message (sent), which then awaits its answer, and shows the submitting
     * status. Nothing stops a second submission while one is in flight.
     */
    method OnSubmit(emailWellFormed: bool) returns (sent: bool)
      modifies this`formStatus, this`pending
      ensures sent <==> ContactFormValid(contactForm, emailWellFormed)
      ensures sent ==> formStatus == FormStatus(Submitting, "Sending message...")
      ensures !sent ==> formStatus == old(formStatus)
      ensures pending == old(pending) + (if sent then 1 else 0)
      ensures old(Valid()) ==> Valid()
    {
      if !ContactFormValid(contactForm, emailWellFormed) {
        return false;
      }
      formStatus := FormStatus(Submitting, StatusMessage(Submitting));
      pending := pending + 1;
      sent := true;
    }

    /**
     * The answer to a sent message: on success the status reports it and
     * the form is cleared; on failure the status reports the error and the
     * form keeps what the visitor typed. An answer only comes for a message
     * that was sent and is still waiting.
     */
    method OnSubmitResponse(succeeded: bool)
      requires pending > 0
      modifies this`formStatus, this`contactForm, this`pending
      ensures succeeded ==> formStatus == FormStatus(Success, "Message sent successfully!")
      ensures succeeded ==> contactForm == EmptyContactForm
      ensures !succeeded ==> formStatus == FormStatus(Error, "Something went wrong. Please try again.")
      ensures !succeeded ==> contactForm == old(contactForm)
      ensures pending == old(pending) - 1
      ensures old(Valid()) ==> Valid()
    {
      pending := pending - 1;
      if succeeded {
        formStatus := FormStatus(Success, StatusMessage(Success));
        contactForm := EmptyContactForm;
      } else {
        formStatus := FormStatus(Error, StatusMessage(Error));
      }
    }

    method OpenProjectModal(project: Project)
      modifies this`selectedProject
      ensures selectedProject == Some(project)
    {
      selectedProject := Some(project);
    }

    /** Closing the project modal also closes its image lightbox. */
    method CloseProjectModal()
      modifies this`selectedProject, this`lightboxImageUrl
      ensures selectedProject == None && lightboxImageUrl == None
    {
      selectedProject := None;
      CloseImageLightbox();
    }

    method OpenImageLightbox(imageUrl: string)
      modifies this`lightboxImageUrl
      ensures lightboxImageUrl == Some(imageUrl)
    {
      lightboxImageUrl := Some(imageUrl);
    }

    method CloseImageLightbox()
      modifies this`lightboxImageUrl
      ensures lightboxImageUrl == None
    {
      lightboxImageUrl := None;
    }

    method OpenAddProjectModal()
      modifies this`showAddProjectModal
      ensures showAddProjectModal
    {
      showAddProjectModal := true;
    }

    method CloseAddProjectModal()
      modifies this`showAddProjectModal
      ensures !showAddProjectModal
    {
      showAddProjectModal := false;
    }

    method OpenAddExperienceModal()
      modifies this`showAddExperienceModal
      ensures showAddExperienceModal
    {
      showAddExperienceModal := true;
    }

    method CloseAddExperienceModal()
      modifies this`showAddExperienceModal
      ensures !showAddExperienceModal
    {
      showAddExperienceModal := false;
    }

    /**
     * An invalid add-project form changes nothing. A valid one appends the
     * project it describes after every existing one, clears the form and
     * closes the modal.
     */
    method OnAddProject()
      modifies this`projects, this`newProjectForm, this`showAddProjectModal
      ensures !ProjectFormValid(old(newProjectForm)) ==>
        projects == old(projects) && newProjectForm == old(newProjectForm)
        && showAddProjectModal == old(showAddProjectModal)
      ensures ProjectFormValid(old(newProjectForm)) ==>
        && |projects| == |old(projects)| + 1
        && projects[..|old(projects)|] == old(projects)
        && projects[|old(projects)|] == BuildProject(old(newProjectForm))
        && newProjectForm == EmptyProjectForm
        && !showAddProjectModal
    {
      if !ProjectFormValid(newProjectForm) {
        return;
      }
      var newProject := BuildProject(newProjectForm);
      projects := projects + [newProject];
      newProjectForm := EmptyProjectForm;
      CloseAddProjectModal();
    }

    /**
     * An invalid add-experience form changes nothing. A valid one appends the
     * experience it describes, on the side opposite the last entry, after
     * every existing one, clears the form and closes the modal; an
     * alternating timeline stays alternating.
     */
    method OnAddExperience()
      modifies this`experiences, this`newExperienceForm, this`showAddExperienceModal
      ensures !ExperienceFormValid(old(newExperienceForm)) ==>
        experiences == old(experiences) && newExperienceForm == old(newExperienceForm)
        && showAddExperienceModal == old(showAddExperienceModal)
      ensures ExperienceFormValid(old(newExperienceForm)) ==>
        && |experiences| == |old(experiences)| + 1
        && experiences[..|old(experiences)|] == old(experiences)
        && experiences[|old(experiences)|] == BuildExperience(old(newExperienceForm), NextAlign(old(experiences)))
        && newExperienceForm == EmptyExperienceForm
        && !showAddExperienceModal
      ensures old(Alternates(experiences)) ==> Alternates(experiences)
      ensures old(Valid()) ==> Valid()
    {
      if !ExperienceFormValid(newExperienceForm) {
        return;
      }
      var before := experiences;
      var newAlignment := NextAlign(before);
      var newExperience := BuildExperience(newExperienceForm, newAlignment);
      if Alternates(before) {
        NextAlignKeepsAlternation(before, newExperience);
      }
      experiences := before + [newExperience];
      assert experiences[..|before|] == before;
      newExperienceForm := EmptyExperienceForm;
      CloseAddExperienceModal();
    }

    /**
     * The escape key closes the first open overlay in the order lightbox,
     * project modal, add-project modal, add-experience modal, and only that
     * one; with none open it changes nothing.
     */
    method OnEscapeKey()
      modifies this`lightboxImageUrl, this`selectedProject, this`showAddProjectModal, this`showAddExperienceModal
      ensures old(LightboxOpen()) ==>
        lightboxImageUrl == None && selectedProject == old(selectedProject)
        && showAddProjectModal == old(showAddProjectModal) && showAddExperienceModal == old(showAddExperienceModal)
      ensures !old(LightboxOpen()) && old(selectedProject).Some? ==>
        selectedProject == None && lightboxImageUrl == None
        && showAddProjectModal == old(showAddProjectModal) && showAddExperienceModal == old(showAddExperienceModal)
      ensures !old(LightboxOpen()) && old(selectedProject) == None && old(showAddProjectModal) ==>
        !showAddProjectModal && lightboxImageUrl == old(lightboxImageUrl) && selectedProject == None
        && showAddExperienceModal == old(showAddExperienceModal)
      ensures !old(LightboxOpen()) && old(selectedProject) == None && !old(showAddProjectModal) ==>
        !showAddExperienceModal && lightboxImageUrl == old(lightboxImageUrl) && selectedProject == None
        && !showAddProjectModal
      ensures old(OpenOverlayCount()) == 0 ==>
        lightboxImageUrl == old(lightboxImageUrl) && selectedProject == old(selectedProject)
        && showAddProjectModal == old(showAddProjectModal) && showAddExperienceModal == old(showAddExperienceModal)
      ensures old(OpenOverlayCount()) > 0 ==> OpenOverlayCount() == old(OpenOverlayCount()) - 1
    {
      if LightboxOpen() {
        CloseImageLightbox();
      } else if selectedProject.Some? {
        CloseProjectModal();
      } else if showAddProjectModal {
        CloseAddProjectModal();
      } else if showAddExperienceModal {
        CloseAddExperienceModal();
      }
    }

    /**
     * The inner map over one span's characters: hands out the running
     * counter from start on, one character at a time.
     */
    method AnimatePartFrom(part: HeadlinePart, start: nat) returns (chars: seq<Headline.AnimatedChar>)
      ensures chars == Headline.AnimatePart(part, start)
    {
      chars := [];
      var charIndex := start;
      var k := 0;
      while k < |part.text|
        invariant 0 <= k <= |part.text|
        invariant chars == Headline.AnimatePart(HeadlinePart(part.text[..k], part.cls), start)
        invariant charIndex == start + k
      {
        Headline.AnimatePartStep(part.text, part.cls, start, k);
        chars := chars + [Headline.AnimatedChar(part.text[k], part.cls, charIndex)];
        charIndex := charIndex + 1;
        k := k + 1;
      }
      assert part.text[..k] == part.text;
    }

    /**
     * The flatMap over one line's spans: walks every span, handing out the
     * running counter from start on, and returns the line's row with the
     * counter where it stopped.
     */
    method AnimateLineFrom(line: seq<HeadlinePart>, start: nat) returns (row: seq<Headline.AnimatedChar>, charIndex: nat)
      ensures row == Headline.AnimateLine(line, start)
      ensures charIndex == start + |Headline.LineText(line)|
    {
      charIndex := start;
      row := [];
      var j := 0;
      while j < |line|
        invariant 0 <= j <= |line|
        invariant row == Headline.AnimateLine(line[..j], start)
        invariant charIndex == start + |Headline.LineText(line[..j])|
      {
        var chars := AnimatePartFrom(line[j], charIndex);
        Headline.AnimateLineStep(line, start, j);
        row := row + chars;
        charIndex := charIndex + |line[j].text|;
        j := j + 1;
      }
      assert line[..j] == line;
    }

    /**
     * animatedHeadline: maps every line to its row, with one counter running
     * on from each line to the next, so each character gets its place in the
     * reveal order.
     */
    method AnimatedHeadline() returns (rows: seq<seq<Headline.AnimatedChar>>)
      ensures rows == Headline.Animate(headlineParts)
    {
      var lines := headlineParts;
      var charIndex: nat := 0;
      rows := [];
      var i := 0;
      while i < |lines|
        invariant 0 <= i <= |lines|
        invariant rows == Headline.Animate(lines[..i])
        invariant charIndex == Headline.CharCount(lines[..i])
      {
        var row;
        Headline.AnimateStep(lines, i);
        row, charIndex := AnimateLineFrom(lines[i], charIndex);
        rows := rows + [row];
        i := i + 1;
      }
      assert lines[..i] == lines;
    }

    /** fullHeadlineText: the headline's lines joined by single spaces. */
    function FullHeadlineText(): (text: string)
      reads this
      ensures headlineParts == InitialHeadlineParts() ==> text == "Turning Data Into Insights"
    {
      Headline.SeedHeadlineText();
      Headline.FullHeadlineText(headlineParts)
    }
  }

  /** Toggling the mobile menu twice leaves it as it was. */
  method ToggleTwice(c: AppComponent)
    modifies c`mobileNavOpen
    ensures c.mobileNavOpen == old(c.mobileNavOpen)
  {
    c.ToggleMobileNav();
    c.ToggleMobileNav();
  }
}
