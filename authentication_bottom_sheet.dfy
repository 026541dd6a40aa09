/**
 The authentication bottom sheet: two outcome flags decide which single listener
 callback a dismissal fires, an opt-in flag gates the switch to biometric
 authentication, and a row of keypad indicators (each checked and/or enabled)
 tracks the digits typed so far in the password buffer.
 */
module AuthenticationBottomSheet {

  /** One keypad indicator view: its checked and enabled states. */
  datatype Toggle = Toggle(checked: bool, enabled: bool)

  /** The calls the sheet makes on its authentication listener. */
  datatype Callback = OnSucceed | OnExceedAuthLimit(limit: int) | OnFailure

  /** What the sheet asks of its collaborators, in order: the presenter's switch to biometric, or a listener call. */
  datatype SheetEvent = ChangeAuthTypeToBiometric | Notify(callback: Callback)

  const Cleared: Toggle := Toggle(false, false)

  /** The one callback a dismissal fires: success first, then the exceeded limit, otherwise failure. */
  function DismissCallback(isAuthenticationSucceed: bool, isExceedAuthLimit: bool, authFailureLimit: int): (c: Callback)
    ensures c == OnSucceed <==> isAuthenticationSucceed
    ensures c.OnExceedAuthLimit? <==> !isAuthenticationSucceed && isExceedAuthLimit
    ensures c.OnExceedAuthLimit? ==> c.limit == authFailureLimit
    ensures c == OnFailure <==> !isAuthenticationSucceed && !isExceedAuthLimit
  {
    if isAuthenticationSucceed then OnSucceed
    else if isExceedAuthLimit then OnExceedAuthLimit(authFailureLimit)
    else OnFailure
  }

  /** The events a dismissal logs: a call of the one callback above, or nothing when no listener is attached. */
  function DismissEvents(hasListener: bool, isAuthenticationSucceed: bool, isExceedAuthLimit: bool, authFailureLimit: int): (r: seq<SheetEvent>)
    ensures |r| == if hasListener then 1 else 0
    ensures hasListener ==> r[0] == Notify(DismissCallback(isAuthenticationSucceed, isExceedAuthLimit, authFailureLimit))
    ensures ChangeAuthTypeToBiometric !in r
  {
    if hasListener then [Notify(DismissCallback(isAuthenticationSucceed, isExceedAuthLimit, authFailureLimit))] else []
  }

  /** Sets the enabled state of the indicator at `index`; an index outside the row changes nothing. */
  function SetEnabledAt(toggles: seq<Toggle>, index: int, enabled: bool): (r: seq<Toggle>)
    ensures |r| == |toggles|
    ensures 0 <= index < |toggles| ==> r[index] == Toggle(toggles[index].checked, enabled)
    ensures forall i :: 0 <= i < |toggles| && i != index ==> r[i] == toggles[i]
    ensures !(0 <= index < |toggles|) ==> r == toggles
  {
    if 0 <= index < |toggles| then toggles[index := toggles[index].(enabled := enabled)] else toggles
  }

  /** Of two successive updates of the same indicator, the later one wins. */
  lemma LastEnableWins(toggles: seq<Toggle>, index: int, first: bool, second: bool)
    ensures SetEnabledAt(SetEnabledAt(toggles, index, first), index, second) == SetEnabledAt(toggles, index, second)
  {
  }

  /** Updates of different indicators do not interfere. */
  lemma SetEnabledAtCommutes(toggles: seq<Toggle>, i: int, j: int, a: bool, b: bool)
    requires i != j
    ensures SetEnabledAt(SetEnabledAt(toggles, i, a), j, b) == SetEnabledAt(SetEnabledAt(toggles, j, b), i, a)
  {
  }

  /** Enabling an indicator and then disabling it leaves the row as a single disable would. */
  lemma AppendThenRemove(toggles: seq<Toggle>, index: int)
    ensures SetEnabledAt(SetEnabledAt(toggles, index, true), index, false) == SetEnabledAt(toggles, index, false)
  {
    LastEnableWins(toggles, index, true, false);
  }

  /** The row after clearToggle: as long as before, every indicator unchecked and disabled. */
  function ClearAll(toggles: seq<Toggle>): (r: seq<Toggle>)
    ensures |r| == |toggles|
    ensures forall i :: 0 <= i < |r| ==> r[i] == Cleared
    decreases |toggles|
  {
    if toggles == [] then [] else [Cleared] + ClearAll(toggles[1..])
  }

  /** The row after the failure animation's start action: every indicator checked, enabled states kept. */
  function CheckAll(toggles: seq<Toggle>): (r: seq<Toggle>)
    ensures |r| == |toggles|
    ensures forall i :: 0 <= i < |r| ==> r[i] == Toggle(true, toggles[i].enabled)
    decreases |toggles|
  {
    if toggles == [] then [] else [Toggle(true, toggles[0].enabled)] + CheckAll(toggles[1..])
  }

  /** Clearing forgets everything but the length of the row. */
  lemma ClearAllDependsOnLengthOnly(a: seq<Toggle>, b: seq<Toggle>)
    requires |a| == |b|
    ensures ClearAll(a) == ClearAll(b)
  {
  }

  /** Clearing twice is clearing once. */
  lemma ClearAllIdempotent(toggles: seq<Toggle>)
    ensures ClearAll(ClearAll(toggles)) == ClearAll(toggles)
  {
  }

  /** Whatever the failure animation's start action and any earlier updates did, the end action's clear erases it. */
  lemma ClearErasesUpdates(toggles: seq<Toggle>, index: int, enabled: bool)
    ensures ClearAll(CheckAll(toggles)) == ClearAll(toggles)
    ensures ClearAll(SetEnabledAt(toggles, index, enabled)) == ClearAll(toggles)
  {
  }

  /**
   The sheet's state. `toggles` is the row of indicator views, `password` the
   password buffer, `page` the view pager's current item, `dismissed` whether the
   dialog was dismissed, and `events` the presenter's changeAuthTypeToBiometric
   calls and the listener calls made so far, in order. `authFailureLimit` is the
   presenter's configured limit as it stands when the sheet is dismissed.
   */
  class BaseAuthenticationBottomSheet {
    const hasListener: bool
    var authFailureLimit: int
    var toggles: seq<Toggle>
    var password: seq<char>
    var page: int
    var isAuthenticationSucceed: bool
    var isBiometricConfirmed: bool
    var isExceedAuthLimit: bool
    var dismissed: bool
    var events: seq<SheetEvent>

    constructor (hasListener: bool, authFailureLimit: int)
      ensures this.hasListener == hasListener && this.authFailureLimit == authFailureLimit
      ensures toggles == [] && password == [] && page == 0
      ensures !isAuthenticationSucceed && !isBiometricConfirmed && !isExceedAuthLimit
      ensures !dismissed && events == []
    {
      this.hasListener := hasListener;
      this.authFailureLimit := authFailureLimit;
      toggles := [];
      password := [];
      page := 0;
      isAuthenticationSucceed := false;
      isBiometricConfirmed := false;
      isExceedAuthLimit := false;
      dismissed := false;
      events := [];
    }

    /** dismiss: closes the sheet and fires the one callback its flags select. */
    method Dismiss()
      modifies this`dismissed, this`events
      ensures dismissed
      ensures events == old(events) + DismissEvents(hasListener, isAuthenticationSucceed, isExceedAuthLimit, authFailureLimit)
    {
      dismissed := true;
      if hasListener {
        if isAuthenticationSucceed {
          events := events + [Notify(OnSucceed)];
        } else if isExceedAuthLimit {
          events := events + [Notify(OnExceedAuthLimit(authFailureLimit))];
        } else {
          events := events + [Notify(OnFailure)];
        }
      }
    }

    /** dismissForSucceed: switches to biometric when opted in, then dismisses with success. */
    method DismissForSucceed()
      modifies this`isAuthenticationSucceed, this`dismissed, this`events
      ensures isAuthenticationSucceed && dismissed
      ensures events == old(events)
        + (if isBiometricConfirmed then [ChangeAuthTypeToBiometric] else [])
        + (if hasListener then [Notify(OnSucceed)] else [])
    {
      if isBiometricConfirmed {
        events := events + [ChangeAuthTypeToBiometric];
      }
      isAuthenticationSucceed := true;
      Dismiss();
    }

    /** dismissForExceedAuthLimit: dismisses after raising the exceed flag; an earlier success still wins. */
    method DismissForExceedAuthLimit()
      modifies this`isExceedAuthLimit, this`dismissed, this`events
      ensures isExceedAuthLimit && dismissed
      ensures events == old(events)
        + (if !hasListener then []
           else if isAuthenticationSucceed then [Notify(OnSucceed)]
           else [Notify(OnExceedAuthLimit(authFailureLimit))])
    {
      isExceedAuthLimit := true;
      Dismiss();
    }

    /** The biometric-confirm button: each click flips the opt-in. */
    method ClickBiometricConfirm()
      modifies this`isBiometricConfirmed
      ensures isBiometricConfirmed == !old(isBiometricConfirmed)
    {
      isBiometricConfirmed := !isBiometricConfirmed;
    }

    /** appendToggleAt: enables the indicator at `index`, if there is one. */
    method AppendToggleAt(index: int)
      modifies this`toggles
      ensures toggles == SetEnabledAt(old(toggles), index, true)
    {
      if 0 <= index < |toggles| {
        toggles := toggles[index := toggles[index].(enabled := true)];
      }
    }

    /** removeToggleAt: disables the indicator at `index`, if there is one. */
    method RemoveToggleAt(index: int)
      modifies this`toggles
      ensures toggles == SetEnabledAt(old(toggles), index, false)
    {
      if 0 <= index < |toggles| {
        toggles := toggles[index := toggles[index].(enabled := false)];
      }
    }

    /** clearToggle: unchecks and disables every indicator, one after the other. */
    method ClearToggle()
      modifies this`toggles
      ensures toggles == ClearAll(old(toggles))
    {
      var i := 0;
      while i < |toggles|
        invariant 0 <= i <= |toggles| == |old(toggles)|
        invariant forall k :: 0 <= k < i ==> toggles[k] == Cleared
        invariant forall k :: i <= k < |toggles| ==> toggles[k] == old(toggles)[k]
      {
        toggles := toggles[i := Cleared];
        i := i + 1;
      }
    }

    /** The start action of showAuthFailure: checks every indicator. */
    method AuthFailureStartAction()
      modifies this`toggles
      ensures toggles == CheckAll(old(toggles))
    {
      var i := 0;
      while i < |toggles|
        invariant 0 <= i <= |toggles| == |old(toggles)|
        invariant forall k :: 0 <= k < i ==> toggles[k] == Toggle(true, old(toggles)[k].enabled)
        invariant forall k :: i <= k < |toggles| ==> toggles[k] == old(toggles)[k]
      {
        toggles := toggles[i := toggles[i].(checked := true)];
        i := i + 1;
      }
    }

    /** The end action of showAuthFailure: clears the indicators and the password and returns to page 0. */
    method AuthFailureEndAction()
      modifies this`toggles, this`password, this`page
      ensures toggles == ClearAll(old(toggles))
      ensures password == [] && page == 0
    {
      ClearToggle();
      password := [];
      page := 0;
    }

    /** showAuthFailure, its animation taken as one step: the indicators end cleared, the password empty, page 0. */
    method ShowAuthFailure()
      modifies this`toggles, this`password, this`page
      ensures toggles == ClearAll(old(toggles))
      ensures password == [] && page == 0
    {
      AuthFailureStartAction();
      ghost var checked := toggles;
      assert checked == CheckAll(old(toggles));
      AuthFailureEndAction();
      ClearErasesUpdates(old(toggles), 0, false);
    }
  }

  /** Two clicks of the biometric-confirm button restore the opt-in. */
  method ClickTwice(sheet: BaseAuthenticationBottomSheet)
    modifies sheet
    ensures sheet.isBiometricConfirmed == old(sheet.isBiometricConfirmed)
  {
    sheet.ClickBiometricConfirm();
    sheet.ClickBiometricConfirm();
  }
}
