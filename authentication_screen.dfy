/**
 The authentication wizard screen: the purpose of the wizard fixes how many pages
 it shows and which role each page plays; a current page index moves forward and
 backward within bounds; every page that is created registers a back-press
 interceptor under its position; and a result record (purpose, auth type, result
 code) starts as CANCELLED and is overwritten by exactly one of the finish actions.
 */
module AuthenticationScreen {

  datatype Option<T> = None | Some(value: T)

  // Purpose codes, as passed in the "purpose" intent extra.
  const PURPOSE_AUTH: int := 0
  const PURPOSE_SCREEN_LOCK: int := 1
  const PURPOSE_SIGN_IN: int := 2
  const PURPOSE_SIGN_UP: int := 3
  const PURPOSE_CREATE: int := 4
  const PURPOSE_CHANGE: int := 5
  const PURPOSE_DELETE: int := 6

  // Result codes, as written to the "auth_result" extra of the result intent.
  const SUCCEED: int := 0
  const CANCELLED: int := 1
  const EXCEEDED_AUTH_LIMIT: int := 2

  /** The role of a page: which of the three abstract fragment factories made it. */
  datatype PageRole = Authentication | PasswordInput | PasswordInputConfirm

  /** The activity result handed to the platform alongside the result intent. */
  datatype ActivityResult = ResultOk | ResultCanceled

  /** The extras of the result intent. The auth type is passed through untouched. */
  datatype AuthResult = AuthResult(purpose: int, authType: nat, code: int)

  /** Requests the screen makes of its collaborators, in the order it makes them. */
  datatype Effect = ChangeAuthTypeToBiometric | ShowExitConfirmDialog

  /** The movements of the page index. */
  datatype PageMove = MoveNext | MoveBack

  predicate ValidPurpose(purpose: int) {
    PURPOSE_AUTH <= purpose <= PURPOSE_DELETE
  }

  predicate ValidResultCode(code: int) {
    code == SUCCEED || code == CANCELLED || code == EXCEEDED_AUTH_LIMIT
  }

  /** The purposes whose wizard consists of the authentication page alone. */
  predicate IsSinglePage(purpose: int) {
    purpose == PURPOSE_AUTH || purpose == PURPOSE_SCREEN_LOCK
    || purpose == PURPOSE_SIGN_IN || purpose == PURPOSE_DELETE
  }

  /** The purposes that ask for a new password and its confirmation and nothing else. */
  predicate IsNewPassword(purpose: int) {
    purpose == PURPOSE_SIGN_UP || purpose == PURPOSE_CREATE
  }

  /** The page sequence of each purpose, as a table of roles. */
  function PageSequence(purpose: int): (s: seq<PageRole>)
    requires ValidPurpose(purpose)
  {
    if IsSinglePage(purpose) then [Authentication]
    else if IsNewPassword(purpose) then [PasswordInput, PasswordInputConfirm]
    else [Authentication, PasswordInput, PasswordInputConfirm]
  }

  /** The adapter's item count; an invalid purpose makes the adapter throw. */
  function PageCount(purpose: int): (n: nat)
    requires ValidPurpose(purpose)
    ensures 1 <= n <= 3
    ensures n == |PageSequence(purpose)|
    ensures n == 1 <==> IsSinglePage(purpose)
    ensures n == 2 <==> IsNewPassword(purpose)
    ensures n == 3 <==> purpose == PURPOSE_CHANGE
  {
    match purpose
    case 0 => 1
    case 1 => 1
    case 2 => 1
    case 6 => 1
    case 3 => 2
    case 4 => 2
    case 5 => 3
  }

  /**
   The positions the adapter can create a page for without throwing. A
   single-page purpose builds the authentication page whatever the position;
   the other purposes throw for every position outside the page count.
   */
  predicate FragmentDefined(purpose: int, position: int) {
    ValidPurpose(purpose) && (IsSinglePage(purpose) || 0 <= position < PageCount(purpose))
  }

  /** The role of the page the adapter creates for a position. */
  function FragmentRole(purpose: int, position: int): (r: PageRole)
    requires FragmentDefined(purpose, position)
    ensures 0 <= position < PageCount(purpose) ==> r == PageSequence(purpose)[position]
    ensures IsSinglePage(purpose) ==> r == Authentication
    ensures r == PasswordInputConfirm ==> position == PageCount(purpose) - 1
  {
    if IsSinglePage(purpose) then Authentication
    else if IsNewPassword(purpose) then
      (if position == 0 then PasswordInput else PasswordInputConfirm)
    else
      (if position == 0 then Authentication
       else if position == 1 then PasswordInput
       else PasswordInputConfirm)
  }

  /** A new password is always confirmed on the page right after the one it is entered on. */
  lemma ConfirmFollowsInput(purpose: int, position: int)
    requires ValidPurpose(purpose) && 0 <= position < PageCount(purpose)
    requires FragmentRole(purpose, position) == PasswordInputConfirm
    ensures position > 0 && FragmentRole(purpose, position - 1) == PasswordInput
  {
  }

  /** Only a CHANGE wizard asks for the current credential before a new one. */
  lemma AuthenticationBeforeInputOnlyForChange(purpose: int)
    requires ValidPurpose(purpose) && PageCount(purpose) > 1
    ensures FragmentRole(purpose, 0) == Authentication <==> purpose == PURPOSE_CHANGE
  {
  }

  /** The interceptor registry after the page at a position registered itself. */
  function Register(interceptors: map<int, bool>, position: int, intercepts: bool): (r: map<int, bool>)
    ensures r.Keys == interceptors.Keys + {position}
    ensures r[position] == intercepts
    ensures forall k :: k in interceptors && k != position ==> r[k] == interceptors[k]
  {
    interceptors[position := intercepts]
  }

  /** Whether the page at a position swallows a back press; a page never registered does not. */
  function Intercepts(interceptors: map<int, bool>, page: int): bool {
    page in interceptors && interceptors[page]
  }

  /** What a back press requests: nothing when intercepted, otherwise the exit-confirm dialog. */
  function BackPressEffects(interceptors: map<int, bool>, page: int): (r: seq<Effect>)
    ensures r == [] <==> Intercepts(interceptors, page)
    ensures r != [] ==> r == [ShowExitConfirmDialog]
  {
    if Intercepts(interceptors, page) then [] else [ShowExitConfirmDialog]
  }

  /** A back press on the page just registered depends on that page alone; on other pages nothing changes. */
  lemma BackPressAfterRegister(interceptors: map<int, bool>, position: int, intercepts: bool, page: int)
    ensures BackPressEffects(Register(interceptors, position, intercepts), page)
         == if page == position then (if intercepts then [] else [ShowExitConfirmDialog])
            else BackPressEffects(interceptors, page)
  {
  }

  /** The page index after moveNextPage; the last page stays put. */
  function NextPage(page: int, count: nat): (r: int)
    ensures r == page || r == page + 1
    ensures r == page + 1 <==> page < count - 1
    ensures 0 <= page < count ==> 0 <= r < count
  {
    if page < count - 1 then page + 1 else page
  }

  /** The page index after moveBackPage; page 0 is never left backwards. */
  function BackPage(page: int): (r: int)
    ensures r == page || r == page - 1
    ensures r == page - 1 <==> page > 0
    ensures page >= 0 ==> r >= 0
  {
    if page > 0 then page - 1 else page
  }

  /** The page index after a sequence of moves on a wizard of `count` pages. */
  function Navigate(page: int, count: nat, moves: seq<PageMove>): int
    decreases |moves|
  {
    if moves == [] then page
    else
      var next := if moves[0] == MoveNext then NextPage(page, count) else BackPage(page);
      Navigate(next, count, moves[1..])
  }

  /** No sequence of moves takes the page index out of [0, count - 1]. */
  lemma {:induction false} NavigateStaysInRange(page: int, count: nat, moves: seq<PageMove>)
    requires 0 <= page < count
    ensures 0 <= Navigate(page, count, moves) < count
    decreases |moves|
  {
    if moves != [] {
      var next := if moves[0] == MoveNext then NextPage(page, count) else BackPage(page);
      NavigateStaysInRange(next, count, moves[1..]);
    }
  }

  function Repeat(move: PageMove, k: nat): (r: seq<PageMove>)
    ensures |r| == k && forall i :: 0 <= i < k ==> r[i] == move
  {
    if k == 0 then [] else [move] + Repeat(move, k - 1)
  }

  /** Moving forward k times from a page stops at the last page and never passes it. */
  lemma {:induction false} ForwardStopsAtLastPage(page: int, count: nat, k: nat)
    requires 0 <= page < count
    ensures Navigate(page, count, Repeat(MoveNext, k))
         == if page + k < count then page + k else count - 1
    decreases k
  {
    if k > 0 {
      assert Repeat(MoveNext, k)[1..] == Repeat(MoveNext, k - 1);
      ForwardStopsAtLastPage(NextPage(page, count), count, k - 1);
    }
  }

  /** Moving back k times from a page stops at page 0. */
  lemma {:induction false} BackwardStopsAtFirstPage(page: int, count: nat, k: nat)
    requires 0 <= page
    ensures Navigate(page, count, Repeat(MoveBack, k)) == if page - k >= 0 then page - k else 0
    decreases k
  {
    if k > 0 {
      assert Repeat(MoveBack, k)[1..] == Repeat(MoveBack, k - 1);
      BackwardStopsAtFirstPage(BackPage(page), count, k - 1);
    }
  }

  /**
   The activity state that the authentication logic reads and writes. The view
   pager's current item is `currentPage`; the intent extras of the result are
   `result`; `setResult` is `activityResult`; `finish()` sets `finished`.
   */
  class BaseAuthenticationActivity {
    const purpose: int
    const authType: nat
    var currentPage: int
    var interceptors: map<int, bool>
    var isBiometricConfirmed: bool
    var result: AuthResult
    var activityResult: ActivityResult
    var finished: bool
    var effects: seq<Effect>

    /** The result record always echoes the purpose and auth type and holds a known code. */
    ghost predicate ResultInvariant()
      reads this
    {
      result.purpose == purpose && result.authType == authType && ValidResultCode(result.code)
    }

    /** The purpose is one the adapter accepts and the current page is one of its pages. */
    ghost predicate PageInvariant()
      reads this
    {
      ValidPurpose(purpose) && 0 <= currentPage < PageCount(purpose)
    }

    /** onCreate: the purpose extra defaults to PURPOSE_AUTH and the result starts as CANCELLED. */
    constructor (purposeExtra: Option<int>, authType: nat)
      ensures purpose == (if purposeExtra.Some? then purposeExtra.value else PURPOSE_AUTH)
      ensures this.authType == authType
      ensures result == AuthResult(purpose, authType, CANCELLED)
      ensures activityResult == ResultCanceled
      ensures currentPage == 0 && interceptors == map[]
      ensures !isBiometricConfirmed && !finished && effects == []
      ensures ResultInvariant()
      ensures ValidPurpose(purpose) ==> PageInvariant()
    {
      purpose := if purposeExtra.Some? then purposeExtra.value else PURPOSE_AUTH;
      this.authType := authType;
      currentPage := 0;
      interceptors := map[];
      isBiometricConfirmed := false;
      result := AuthResult(if purposeExtra.Some? then purposeExtra.value else PURPOSE_AUTH, authType, CANCELLED);
      activityResult := ResultCanceled;
      finished := false;
      effects := [];
    }

    /**
     The adapter's createFragment: builds the page for a position and registers it
     as the back-press interceptor of that position. `intercepts` is what the new
     page's onInterceptBackPressed answers.
     */
    method CreateFragment(position: int, intercepts: bool) returns (role: PageRole)
      requires FragmentDefined(purpose, position)
      modifies this`interceptors
      ensures role == FragmentRole(purpose, position)
      ensures interceptors == Register(old(interceptors), position, intercepts)
    {
      role := FragmentRole(purpose, position);
      interceptors := interceptors[position := intercepts];
    }

    /** moveNextPage: advances unless already on the last page; it never finishes the wizard. */
    method MoveNextPage()
      requires PageInvariant()
      modifies this`currentPage
      ensures currentPage == NextPage(old(currentPage), PageCount(purpose))
      ensures PageInvariant()
    {
      if currentPage < PageCount(purpose) - 1 {
        currentPage := currentPage + 1;
      }
    }

    /** moveBackPage: goes back unless already on page 0. */
    method MoveBackPage()
      modifies this`currentPage
      ensures currentPage == BackPage(old(currentPage))
      ensures old(PageInvariant()) ==> PageInvariant()
    {
      if currentPage > 0 {
        currentPage := currentPage - 1;
      }
    }

    /**
     onBackPressed: asks the current page's interceptor; unless it swallows the
     press, requests the exit-confirm dialog. The page index never moves.
     */
    method OnBackPressed()
      modifies this`effects
      ensures effects == old(effects) + BackPressEffects(interceptors, currentPage)
      ensures currentPage == old(currentPage)
    {
      var isIntercept := Intercepts(interceptors, currentPage);
      if !isIntercept {
        effects := effects + [ShowExitConfirmDialog];
      }
    }

    /**
     The positive button of the exit-confirm dialog: finishes with the result as it
     stands. The button exists only once a back press has shown the dialog.
     */
    method ConfirmExit()
      requires ShowExitConfirmDialog in effects
      modifies this`finished
      ensures finished
    {
      finished := true;
    }

    /** The biometric-confirm button: each click flips the opt-in. */
    method ClickBiometricConfirm()
      modifies this`isBiometricConfirmed
      ensures isBiometricConfirmed == !old(isBiometricConfirmed)
    {
      isBiometricConfirmed := !isBiometricConfirmed;
    }

    /** finishForSucceed: switches to biometric first when opted in, then reports SUCCEED. */
    method FinishForSucceed()
      requires ResultInvariant()
      modifies this`effects, this`result, this`activityResult, this`finished
      ensures effects == old(effects) + (if isBiometricConfirmed then [ChangeAuthTypeToBiometric] else [])
      ensures result == old(result).(code := SUCCEED)
      ensures activityResult == ResultOk && finished
      ensures ResultInvariant()
    {
      if isBiometricConfirmed {
        effects := effects + [ChangeAuthTypeToBiometric];
      }
      result := result.(code := SUCCEED);
      activityResult := ResultOk;
      finished := true;
    }

    /** finishForFailure: reports CANCELLED; the biometric switch is not touched. */
    method FinishForFailure()
      requires ResultInvariant()
      modifies this`result, this`activityResult, this`finished
      ensures result == old(result).(code := CANCELLED)
      ensures activityResult == ResultCanceled && finished
      ensures ResultInvariant()
    {
      result := result.(code := CANCELLED);
      activityResult := ResultCanceled;
      finished := true;
    }

    /** finishForAuthenticationExceeded: reports EXCEEDED_AUTH_LIMIT; the biometric switch is not touched. */
    method FinishForAuthenticationExceeded()
      requires ResultInvariant()
      modifies this`result, this`activityResult, this`finished
      ensures result == old(result).(code := EXCEEDED_AUTH_LIMIT)
      ensures activityResult == ResultCanceled && finished
      ensures ResultInvariant()
    {
      result := result.(code := EXCEEDED_AUTH_LIMIT);
      activityResult := ResultCanceled;
      finished := true;
    }
  }

  /** A sign-up wizard: two pages; moving past the last page does not finish it, the completion dialog does. */
  method SignUpScenario(authType: nat) returns (a: BaseAuthenticationActivity)
    ensures a.finished && a.result == AuthResult(PURPOSE_SIGN_UP, authType, SUCCEED)
    ensures a.effects == []
  {
    a := new BaseAuthenticationActivity(Some(PURPOSE_SIGN_UP), authType);
    var first := a.CreateFragment(0, false);
    assert first == PasswordInput;
    a.MoveNextPage();
    var second := a.CreateFragment(1, false);
    assert second == PasswordInputConfirm && a.currentPage == 1;
    a.MoveNextPage();
    assert a.currentPage == 1 && !a.finished;
    a.FinishForSucceed();
  }

  /** A change wizard left from page 0: the back press asks for confirmation and the result stays CANCELLED. */
  method ChangeExitScenario(authType: nat) returns (a: BaseAuthenticationActivity)
    ensures a.finished && a.result == AuthResult(PURPOSE_CHANGE, authType, CANCELLED)
    ensures a.activityResult == ResultCanceled && a.effects == [ShowExitConfirmDialog]
  {
    a := new BaseAuthenticationActivity(Some(PURPOSE_CHANGE), authType);
    var role := a.CreateFragment(0, false);
    assert role == Authentication;
    a.OnBackPressed();
    a.ConfirmExit();
  }

  /** An opted-in user whose failures reach the limit: EXCEEDED_AUTH_LIMIT and no biometric switch. */
  method ExceededScenario(authType: nat) returns (a: BaseAuthenticationActivity)
    ensures a.finished && a.result == AuthResult(PURPOSE_AUTH, authType, EXCEEDED_AUTH_LIMIT)
    ensures ChangeAuthTypeToBiometric !in a.effects
  {
    a := new BaseAuthenticationActivity(None, authType);
    a.ClickBiometricConfirm();
    a.FinishForAuthenticationExceeded();
  }
}
