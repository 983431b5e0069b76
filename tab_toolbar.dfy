/**
 * `FloatingTabToolbar`: two or three tabs with single selection. The third
 * tab is hidden until `showTertiaryTab(true)`; configuring or selecting it
 * while hidden throws. Clicking a tab selects it, then runs its click handler.
 */
module TabToolbar {
  import opened Wrappers
  import opened TabAdapter

  datatype Tab = Primary | Secondary | Tertiary

  /** The motion layout's constraint sets, one per selected tab. */
  datatype ConstraintSet = PrimaryTabSelected | SecondaryTabSelected | TertiaryTabSelected

  /** The views `showTertiaryTab` shows or hides in every constraint set. */
  datatype ToolbarElement = Divider2 | TertiaryBackground | TertiaryIcon | TertiaryText

  datatype Visibility = Visible | Invisible | Gone

  const TertiaryHiddenMessage := "showTertiaryTab is false. Please set showTertiaryTab true first."
  const TransitionDurationMillis := 200

  /** The state each tab's selection transitions the motion layout to. */
  function SelectedState(tab: Tab): ConstraintSet {
    match tab
    case Primary => PrimaryTabSelected
    case Secondary => SecondaryTabSelected
    case Tertiary => TertiaryTabSelected
  }

  /**
   * The visibility `showTertiaryTab(show)` gives an element in a constraint
   * set: everything is gone when hidden; when shown, all are visible except
   * the tertiary background, which is visible only in the tertiary-selected
   * set and invisible (but laid out) in the other two.
   */
  function ElementVisibility(show: bool, constraintSet: ConstraintSet, element: ToolbarElement): (v: Visibility)
    ensures !show <==> v == Gone
    ensures v == Invisible <==> show && element == TertiaryBackground && constraintSet != TertiaryTabSelected
  {
    if !show then Gone
    else if element == TertiaryBackground then
      if constraintSet == TertiaryTabSelected then Visible else Invisible
    else Visible
  }

  class FloatingTabToolbar {
    var showTertiaryTab: bool
    var onPrimaryClick: Option<ClickHandler>
    var onSecondaryClick: Option<ClickHandler>
    var onTertiaryClick: Option<ClickHandler>
    /** Tab texts; `None` until set (the layout's own text). */
    var primaryText: Option<string>
    var secondaryText: Option<string>
    var tertiaryText: Option<string>
    /** The last state the motion layout was asked to transition to. */
    var transitionTarget: Option<ConstraintSet>

    function OnClick(tab: Tab): Option<ClickHandler>
      reads this
    {
      match tab
      case Primary => onPrimaryClick
      case Secondary => onSecondaryClick
      case Tertiary => onTertiaryClick
    }

    function Text(tab: Tab): Option<string>
      reads this
    {
      match tab
      case Primary => primaryText
      case Secondary => secondaryText
      case Tertiary => tertiaryText
    }

    /** The visibilities currently applied to the motion layout's constraint sets. */
    function Visibility(constraintSet: ConstraintSet, element: ToolbarElement): Visibility
      reads this
    {
      ElementVisibility(showTertiaryTab, constraintSet, element)
    }

    /** The tertiary tab is hidden, and no handler, text or selection is set. */
    constructor ()
      ensures !showTertiaryTab
      ensures forall tab :: OnClick(tab).None? && Text(tab).None?
      ensures transitionTarget.None?
    {
      showTertiaryTab := false;
      onPrimaryClick, onSecondaryClick, onTertiaryClick := None, None, None;
      primaryText, secondaryText, tertiaryText := None, None, None;
      transitionTarget := None;
    }

    method ShowTertiaryTab(show: bool)
      modifies this
      ensures showTertiaryTab == show
      ensures forall tab :: OnClick(tab) == old(OnClick(tab)) && Text(tab) == old(Text(tab))
      ensures transitionTarget == old(transitionTarget)
    {
      showTertiaryTab := show;
    }

    /** `setOnTabClick`: sets one tab's handler; the third tab while hidden throws and changes nothing. */
    method SetOnTabClick(tab: Tab, onClick: Option<ClickHandler>) returns (r: Outcome<()>)
      modifies this
      ensures r.Thrown? <==> tab == Tertiary && !showTertiaryTab
      ensures r.Thrown? ==> r.exception == TertiaryHiddenMessage && OnClick(tab) == old(OnClick(tab))
      ensures r.Ok? ==> OnClick(tab) == onClick
      ensures forall other :: other != tab ==> OnClick(other) == old(OnClick(other))
      ensures forall t :: Text(t) == old(Text(t))
      ensures showTertiaryTab == old(showTertiaryTab) && transitionTarget == old(transitionTarget)
    {
      match tab
      case Primary =>
        onPrimaryClick := onClick;
        r := Ok(());
      case Secondary =>
        onSecondaryClick := onClick;
        r := Ok(());
      case Tertiary =>
        if !showTertiaryTab {
          r := Thrown(TertiaryHiddenMessage);
        } else {
          onTertiaryClick := onClick;
          r := Ok(());
        }
    }

    /** `setTabText`: sets one tab's text; the third tab while hidden throws and changes nothing. */
    method SetTabText(tab: Tab, text: string) returns (r: Outcome<()>)
      modifies this
      ensures r.Thrown? <==> tab == Tertiary && !showTertiaryTab
      ensures r.Thrown? ==> r.exception == TertiaryHiddenMessage && Text(tab) == old(Text(tab))
      ensures r.Ok? ==> Text(tab) == Some(text)
      ensures forall other :: other != tab ==> Text(other) == old(Text(other))
      ensures forall t :: OnClick(t) == old(OnClick(t))
      ensures showTertiaryTab == old(showTertiaryTab) && transitionTarget == old(transitionTarget)
    {
      match tab
      case Primary =>
        primaryText := Some(text);
        r := Ok(());
      case Secondary =>
        secondaryText := Some(text);
        r := Ok(());
      case Tertiary =>
        if !showTertiaryTab {
          r := Thrown(TertiaryHiddenMessage);
        } else {
          tertiaryText := Some(text);
          r := Ok(());
        }
    }

    /** `setTabSelected`: transitions to the tab's selected state; the third tab while hidden throws. */
    method SetTabSelected(tab: Tab) returns (r: Outcome<()>)
      modifies this
      ensures r.Thrown? <==> tab == Tertiary && !showTertiaryTab
      ensures r.Thrown? ==> r.exception == TertiaryHiddenMessage && transitionTarget == old(transitionTarget)
      ensures r.Ok? ==> transitionTarget == Some(SelectedState(tab))
      ensures forall t :: OnClick(t) == old(OnClick(t)) && Text(t) == old(Text(t))
      ensures showTertiaryTab == old(showTertiaryTab)
    {
      if tab == Tertiary && !showTertiaryTab {
        r := Thrown(TertiaryHiddenMessage);
      } else {
        transitionTarget := Some(SelectedState(tab));
        r := Ok(());
      }
    }

    /** A tab's click listener: select the tab, then run its handler (returned here, if any). */
    method ClickTab(tab: Tab) returns (r: Outcome<Option<ClickHandler>>)
      modifies this
      ensures r.Thrown? <==> tab == Tertiary && !showTertiaryTab
      ensures r.Thrown? ==> r.exception == TertiaryHiddenMessage && transitionTarget == old(transitionTarget)
      ensures r.Ok? ==> r.value == OnClick(tab) && transitionTarget == Some(SelectedState(tab))
      ensures forall t :: OnClick(t) == old(OnClick(t)) && Text(t) == old(Text(t))
      ensures showTertiaryTab == old(showTertiaryTab)
    {
      var selected := SetTabSelected(tab);
      if selected.Thrown? {
        r := Thrown(selected.exception);
      } else {
        r := Ok(OnClick(tab));
      }
    }
  }

  /**
   * Configuring the third tab fails until it is shown and succeeds after;
   * clicking it then selects it and runs its handler.
   */
  method TertiaryTabScenario(handler: ClickHandler)
    returns (before: Outcome<()>, after: Outcome<()>, clicked: Outcome<Option<ClickHandler>>, target: Option<ConstraintSet>)
    ensures before == Thrown(TertiaryHiddenMessage)
    ensures after == Ok(())
    ensures clicked == Ok(Some(handler))
    ensures target == Some(TertiaryTabSelected)
  {
    var toolbar := new FloatingTabToolbar();
    before := toolbar.SetOnTabClick(Tertiary, Some(handler));
    toolbar.ShowTertiaryTab(true);
    after := toolbar.SetOnTabClick(Tertiary, Some(handler));
    clicked := toolbar.ClickTab(Tertiary);
    assert after.value == ();
    target := toolbar.transitionTarget;
  }
}
