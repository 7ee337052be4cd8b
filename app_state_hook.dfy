/**
 * `useAppState`: follows the app's lifecycle status and calls an optional
 * `onForeground` callback when the app comes back to the foreground.
 */
module AppStateHook {
  import opened JsString

  /** React Native's `AppStateStatus`. */
  datatype AppStatus = Active | Background | Inactive | Unknown | Extension

  /** The status as the string the platform reports. */
  function Name(s: AppStatus): string
  {
    match s
    case Active => "active"
    case Background => "background"
    case Inactive => "inactive"
    case Unknown => "unknown"
    case Extension => "extension"
  }

  /** `name.match(/inactive|background/)` is non-null: either word occurs somewhere in the name. */
  predicate MatchesInactiveOrBackground(name: string)
  {
    Includes(name, "inactive") || Includes(name, "background")
  }

  /** The listener's test: the previous status matches the pattern and the next one is "active". */
  predicate ComesToForeground(prev: AppStatus, next: AppStatus)
    ensures ComesToForeground(prev, next) <==> (prev == Inactive || prev == Background) && next == Active
  {
    MatchesExactly(prev);
    MatchesInactiveOrBackground(Name(prev)) && Name(next) == "active"
  }

  /** Of the five statuses, the pattern matches exactly "inactive" and "background". */
  lemma MatchesExactly(s: AppStatus)
    ensures MatchesInactiveOrBackground(Name(s)) <==> s == Inactive || s == Background
  {
    match s
    case Active =>
      ShorterExcludes("active", "inactive");
      ShorterExcludes("active", "background");
    case Background =>
      assert StartsWith("background", "background");
    case Inactive =>
      assert StartsWith("inactive", "inactive");
    case Unknown =>
      ShorterExcludes("unknown", "inactive");
      ShorterExcludes("unknown", "background");
    case Extension =>
      var e := "extension";
      assert !StartsWith(e, "inactive") by { assert e[0] != "inactive"[0]; }
      assert !StartsWith(e[1..], "inactive") by { assert e[1..][0] != "inactive"[0]; }
      ShorterExcludes(e[1..][1..], "inactive");
      ShorterExcludes(e, "background");
  }

  /** Moves that stay in, or leave, the foreground never call back. */
  lemma NoCallbackOutsideForegroundMoves()
    ensures !ComesToForeground(Active, Active)
    ensures !ComesToForeground(Active, Background)
    ensures !ComesToForeground(Background, Inactive)
    ensures !ComesToForeground(Unknown, Active)
  {
  }

  /**
   * One mounted hook: `current` is the `appState` ref, `visible` the
   * `appStateVisible` state the hook returns, `hasCallback` whether
   * `onForeground` was supplied, and `foregroundCalls` how often it ran.
   */
  class AppStateListener {
    var current: AppStatus
    var visible: AppStatus
    const hasCallback: bool
    var foregroundCalls: nat

    /** Mounting reads the status at that moment into both the ref and the state. */
    constructor (atMount: AppStatus, withCallback: bool)
      ensures current == atMount && visible == atMount
      ensures hasCallback == withCallback && foregroundCalls == 0
    {
      current := atMount;
      visible := atMount;
      hasCallback := withCallback;
      foregroundCalls := 0;
    }

    /** What the hook returns. */
    function Status(): AppStatus
      reads this
    {
      visible
    }

    /**
     * The `change` listener: calls `onForeground` (when supplied) on a move
     * to the foreground, then records the new status in the ref and the state.
     */
    method OnChange(next: AppStatus) returns (fired: bool)
      modifies this
      ensures fired <==> (old(current) == Inactive || old(current) == Background) && next == Active
      ensures foregroundCalls == old(foregroundCalls) + (if fired && hasCallback then 1 else 0)
      ensures current == next && visible == next && Status() == next
    {
      fired := false;
      if ComesToForeground(current, next) {
        fired := true;
        if hasCallback {
          foregroundCalls := foregroundCalls + 1;
        }
      }
      current := next;
      visible := current;
    }
  }
}
