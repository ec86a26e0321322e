/** What a positive termination receipt rests on: the scan for processes that can
    still mutate and the signalling and polling around it. */
module ProcessTree {
  import opened Text

  /** A directory entry under the proc root: another name, a process that
      vanished before it was read, a line that cannot be parsed, or a process
      with its state letter and its group. */
  datatype Entry = Other | Vanished | Unparsed | Process(state: char, group: int)

  predicate Mutable(e: Entry, pid: int) {
    e.Process? && e.group == pid && e.state != 'Z' && e.state != 'X'
  }

  predicate Member(e: Entry, pid: int) { e.Process? && e.group == pid }

  predicate AnyMutable(entries: seq<Entry>, pid: int) {
    exists i :: 0 <= i < |entries| && Mutable(entries[i], pid)
  }

  predicate AnyMember(entries: seq<Entry>, pid: int) {
    exists i :: 0 <= i < |entries| && Member(entries[i], pid)
  }

  /** `linuxProcessGroupHasMutableMembers`: somebody in the group is no zombie; if
      nobody in it was seen, whether the kernel still knows the group. */
  method HasMutableMembers(entries: seq<Entry>, readable: bool, pid: int, alive: bool) returns (r: bool)
    ensures !readable ==> r
    ensures readable ==>
      (r <==> AnyMutable(entries, pid) || (alive && !AnyMember(entries, pid)))
  {
    if !readable { return true; }
    var groupMemberFound := false;
    for i := 0 to |entries|
      invariant groupMemberFound <==> exists j :: 0 <= j < i && Member(entries[j], pid)
      invariant forall j :: 0 <= j < i ==> !Mutable(entries[j], pid)
    {
      match entries[i] {
        case Process(state, group) =>
          if group == pid {
            groupMemberFound := true;
            assert Member(entries[i], pid);
            if state != 'Z' && state != 'X' {
              assert Mutable(entries[i], pid);
              return true;
            }
          }
        case _ =>
      }
    }
    return if groupMemberFound then false else alive;
  }

  /** `posixProcessGroupCanMutate`. Off Linux a group that exists can mutate. */
  method CanMutate(linux: bool, entries: seq<Entry>, readable: bool, pid: int, alive: bool) returns (r: bool)
    ensures r ==> alive
    ensures alive ==> (r <==> !linux || !readable || !AnyMember(entries, pid) || AnyMutable(entries, pid))
  {
    if !alive { return false; }
    if !linux { return true; }
    r := HasMutableMembers(entries, readable, pid, alive);
  }

  /** `waitForPosixProcessGroupExit`: `polls` is what each poll finds until time is up. */
  method WaitForExit(polls: seq<bool>) returns (exited: bool, used: nat)
    requires polls != []
    ensures used <= |polls|
    ensures exited <==> exists i :: 0 <= i < |polls| && !polls[i]
    ensures exited ==> used > 0 && !polls[used - 1] && forall i :: 0 <= i < used - 1 ==> polls[i]
  {
    used := 0;
    while used < |polls|
      invariant used <= |polls| && forall i :: 0 <= i < used ==> polls[i]
    {
      used := used + 1;
      if !polls[used - 1] { return true, used; }
    }
    exited := false;
  }

  /** How signals go: the group signal throws, the fallback on the child fails. */
  datatype Signals = Signals(groupThrows: bool, childFails: bool, killThrows: bool)

  datatype Receipt = Receipt(quiesced: bool, escalated: bool, blocked: string)

  /** `terminateWorkspaceProcessTree` for a POSIX child with a pid: `first` and
      `second` are what the polls before and after escalation find. A receipt is
      positive only if the group was absent at the start or a poll found nobody
      who could mutate, and then no later poll was made. */
  method Terminate(alive: bool, kill: bool, signals: Signals, first: seq<bool>, second: seq<bool>)
    returns (r: Receipt)
    requires first != [] && second != []
    ensures r.quiesced <==>
      || !alive
      || (!(signals.groupThrows && signals.childFails)
          && ((exists i :: 0 <= i < |first| && !first[i])
              || (!kill && !signals.killThrows && exists i :: 0 <= i < |second| && !second[i])))
    ensures r.escalated <==> alive && !(signals.groupThrows && signals.childFails) && !kill && forall i :: 0 <= i < |first| ==> first[i]
    ensures r.quiesced <==> r.blocked == ""
  {
    if !alive { return Receipt(true, false, ""); }
    var signalDelivered := false;
    if !signals.groupThrows {
      signalDelivered := true;
    } else {
      signalDelivered := !signals.childFails;
    }
    if !signalDelivered { return Receipt(false, false, "workspace_posix_process_tree_signal_failed"); }
    var exited, _ := WaitForExit(first);
    var escalated := false;
    if !exited && !kill {
      escalated := true;
      if !signals.killThrows { var late, _ := WaitForExit(second); exited := late; }
    }
    return Receipt(exited, escalated, if exited then "" else "workspace_posix_process_group_exit_unverified");
  }
}
