/**
 * ActionLogController: a user reads their own audit entries, newest first,
 * optionally of one action, and can clear them all.
 */
module ActionLogController {
  import opened JavaLang
  import opened Entities
  import opened Store

  /** The entries of one user, in table order. */
  function LogsOf(logs: seq<ActionLog>, username: string): (r: seq<ActionLog>)
    ensures forall e :: e in r <==> e in logs && e.username == username
    ensures |r| <= |logs|
  {
    if logs == [] then []
    else
      var rest := LogsOf(logs[1..], username);
      assert logs == [logs[0]] + logs[1..];
      if logs[0].username == username then [logs[0]] + rest else rest
  }

  /** The entries of one action, in table order. */
  function LogsWithAction(logs: seq<ActionLog>, action: string): (r: seq<ActionLog>)
    ensures forall e :: e in r <==> e in logs && e.action == action
  {
    if logs == [] then []
    else
      var rest := LogsWithAction(logs[1..], action);
      assert logs == [logs[0]] + logs[1..];
      if logs[0].action == action then [logs[0]] + rest else rest
  }

  /** The entries of every other user, in table order. */
  function LogsNotOf(logs: seq<ActionLog>, username: string): (r: seq<ActionLog>)
    ensures forall e :: e in r <==> e in logs && e.username != username
  {
    if logs == [] then []
    else
      var rest := LogsNotOf(logs[1..], username);
      assert logs == [logs[0]] + logs[1..];
      if logs[0].username != username then [logs[0]] + rest else rest
  }

  /**
   * Newest first. Entries are appended as they are created, so ordering by
   * creation time descending reverses the table order.
   */
  function NewestFirst(logs: seq<ActionLog>): (r: seq<ActionLog>)
    ensures |r| == |logs|
    ensures forall i :: 0 <= i < |logs| ==> r[i] == logs[|logs| - 1 - i]
    ensures forall e :: e in r <==> e in logs
  {
    if logs == [] then []
    else
      assert logs == [logs[0]] + logs[1..];
      NewestFirst(logs[1..]) + [logs[0]]
  }

  /** getUserLogs: findByUsernameOrderByCreatedAtDesc. */
  function GetUserLogs(logs: seq<ActionLog>, principal: string): (r: seq<ActionLog>)
    ensures forall e :: e in r <==> e in logs && e.username == principal
  {
    NewestFirst(LogsOf(logs, principal))
  }

  /** getLogsByAction: findByActionOrderByCreatedAtDesc, then keep the caller's own entries. */
  function GetLogsByAction(logs: seq<ActionLog>, principal: string, action: string): (r: seq<ActionLog>)
    ensures forall e :: e in r <==> e in logs && e.action == action && e.username == principal
  {
    LogsOf(NewestFirst(LogsWithAction(logs, action)), principal)
  }

  /** clearLogs: fails when the caller has no entries, else deletes all of theirs. */
  method ClearLogs(w: World, principal: string) returns (r: Result<string>)
    modifies w`logs
    ensures LogsOf(old(w.logs), principal) == [] ==>
      r == Fail(IllegalArgumentException, "No logs found for user: " + principal) && w.logs == old(w.logs)
    ensures LogsOf(old(w.logs), principal) != [] ==>
      r == Ok("Logs cleared successfully.") && w.logs == LogsNotOf(old(w.logs), principal)
  {
    var found := NewestFirst(LogsOf(w.logs, principal));
    if found == [] {
      return Fail(IllegalArgumentException, "No logs found for user: " + principal);
    }
    w.logs := LogsNotOf(w.logs, principal);
    r := Ok("Logs cleared successfully.");
  }

  // ---------------------------------------------------------------------
  // Properties
  // ---------------------------------------------------------------------

  /** After a clear, the user has no entries left, so a second clear fails. */
  lemma {:induction false} ClearLeavesNothing(logs: seq<ActionLog>, username: string)
    ensures LogsOf(LogsNotOf(logs, username), username) == []
  {
    if logs != [] {
      ClearLeavesNothing(logs[1..], username);
    }
  }

  /** Clearing one user's entries leaves every other user's entries, in order. */
  lemma {:induction false} ClearKeepsOthers(logs: seq<ActionLog>, username: string, other: string)
    requires other != username
    ensures LogsOf(LogsNotOf(logs, username), other) == LogsOf(logs, other)
  {
    if logs != [] {
      ClearKeepsOthers(logs[1..], username, other);
    }
  }

  lemma {:induction false} LogsOfAppend(a: seq<ActionLog>, b: seq<ActionLog>, username: string)
    ensures LogsOf(a + b, username) == LogsOf(a, username) + LogsOf(b, username)
  {
    if a == [] {
      assert a + b == b;
    } else {
      assert (a + b)[1..] == a[1..] + b;
      LogsOfAppend(a[1..], b, username);
    }
  }

  lemma {:induction false} LogsOfNewestFirst(logs: seq<ActionLog>, username: string)
    ensures LogsOf(NewestFirst(logs), username) == NewestFirst(LogsOf(logs, username))
  {
    if logs != [] {
      LogsOfNewestFirst(logs[1..], username);
      LogsOfAppend(NewestFirst(logs[1..]), [logs[0]], username);
    }
  }

  lemma {:induction false} FiltersCommute(logs: seq<ActionLog>, username: string, action: string)
    ensures LogsOf(LogsWithAction(logs, action), username) == LogsWithAction(LogsOf(logs, username), action)
  {
    if logs != [] {
      FiltersCommute(logs[1..], username, action);
    }
  }

  /** Filtering by action then user is the user's own history, newest first, restricted to the action. */
  lemma ByActionIsOwnHistory(logs: seq<ActionLog>, principal: string, action: string)
    ensures GetLogsByAction(logs, principal, action) == NewestFirst(LogsWithAction(LogsOf(logs, principal), action))
  {
    LogsOfNewestFirst(LogsWithAction(logs, action), principal);
    FiltersCommute(logs, principal, action);
  }
}
