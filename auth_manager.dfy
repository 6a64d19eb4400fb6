/** AuthManager: a set of authentication panels of which the buttons show one
    at a time. */
module AuthPanels {
  import opened Engine

  /** SetActiveSection on the panels' active flags: an index outside the
      array changes nothing; otherwise the panel at `index` is the only one
      active. */
  function Sectioned(panels: seq<bool>, index: int): (r: seq<bool>)
    ensures |r| == |panels|
    ensures !(0 <= index < |panels|) ==> r == panels
    ensures 0 <= index < |panels| ==> r[index]
    ensures 0 <= index < |panels| ==> forall i :: 0 <= i < |r| && i != index ==> !r[i]
  {
    if index < 0 || index >= |panels| then panels else seq(|panels|, i => i == index)
  }

  /** With a valid index exactly one panel is active afterwards. */
  lemma ExactlyOneActive(panels: seq<bool>, index: int)
    requires 0 <= index < |panels|
    ensures CountOn(Sectioned(panels, index)) == 1
  {
    OnlyOneOn(Sectioned(panels, index), index);
  }

  lemma {:induction false} OnlyOneOn(flags: seq<bool>, index: nat)
    requires index < |flags|
    requires forall i :: 0 <= i < |flags| ==> (flags[i] <==> i == index)
    ensures CountOn(flags) == 1
    decreases index
  {
    if index == 0 {
      AllOffCountsZero(flags[1..]);
    } else {
      OnlyOneOn(flags[1..], index - 1);
    }
  }

  /** Selecting the same section twice is selecting it once. */
  lemma SectionedIdempotent(panels: seq<bool>, index: int)
    ensures Sectioned(Sectioned(panels, index), index) == Sectioned(panels, index)
  {
  }

  /** The buttons AuthInitialiser wires up. */
  datatype AuthButton = SignUp | LogIn | AuthLogIn | AuthSignUp

  /** The section a button selects; the last two call into the Firebase
      manager instead and select none. */
  function SectionOf(b: AuthButton): (r: Option<int>)
    ensures b == SignUp ==> r == Some(1)
    ensures b == LogIn ==> r == Some(0)
    ensures b == AuthLogIn || b == AuthSignUp ==> r.None?
  {
    match b
    case SignUp => Some(1)
    case LogIn => Some(0)
    case _ => None
  }

  /** The panels after a button press. */
  function Pressed(panels: seq<bool>, b: AuthButton): seq<bool>
  {
    match SectionOf(b)
    case Some(index) => Sectioned(panels, index)
    case None => panels
  }

  /** With the sign-up and log-in panels in place, the two buttons flip
      between them: sign-up shows only panel 1, log-in only panel 0. */
  lemma ButtonsShowTheirPanel(panels: seq<bool>)
    requires |panels| >= 2
    ensures var s := Pressed(panels, SignUp); s[1] && !s[0] && CountOn(s) == 1
    ensures var l := Pressed(panels, LogIn); l[0] && !l[1] && CountOn(l) == 1
    ensures Pressed(Pressed(panels, SignUp), LogIn) == Pressed(panels, LogIn)
  {
    ExactlyOneActive(panels, 1);
    ExactlyOneActive(panels, 0);
  }

  class AuthManager {
    /** `_authPanels`, one active flag per panel object. */
    const panels: array<bool>

    constructor (panels: array<bool>)
      ensures this.panels == panels
    {
      this.panels := panels;
    }

    method SetActiveSection(index: int)
      modifies panels
      ensures panels[..] == Sectioned(old(panels[..]), index)
    {
      if index < 0 || index >= panels.Length {
        return;
      }
      var i := 0;
      while i < panels.Length
        invariant 0 <= i <= panels.Length
        invariant forall k :: 0 <= k < i ==> (panels[k] <==> k == index)
      {
        panels[i] := i == index;
        i := i + 1;
      }
    }

    /** A click on one of the buttons AuthInitialiser wired up. */
    method OnClick(b: AuthButton)
      modifies panels
      ensures panels[..] == Pressed(old(panels[..]), b)
    {
      match SectionOf(b)
      case Some(index) => SetActiveSection(index);
      case None =>
    }
  }
}
