/**
 Threshold callbacks (core/budget_controller.py, `_check_thresholds`, `reset_warnings`).
 */
module BudgetAlerts {
  import opened Common
  import opened BudgetLedger
  import opened BudgetTotals

  /** The keys already notified, per level. */
  datatype Flags = Flags(warned: set<string>, paused: set<string>, stopped: set<string>)

  function Key(project: string, task: string): string {
    project + ":" + task
  }

  function At(f: Flags, level: Status): set<string> {
    match level
    case Warning => f.warned
    case Paused => f.paused
    case Stopped => f.stopped
    case _ => {}
  }

  predicate IsAlert(level: Status) {
    level == Warning || level == Paused || level == Stopped
  }

  function Notify(f: Flags, key: string, level: Status): Flags {
    match level
    case Warning => f.(warned := f.warned + {key})
    case Paused => f.(paused := f.paused + {key})
    case Stopped => f.(stopped := f.stopped + {key})
    case _ => f
  }

  function Keep(keys: set<string>, prefix: string): set<string> {
    set k | k in keys && !(prefix <= k)
  }

  /** Without a project (or with an empty one) every key is cleared. */
  function Clear(f: Flags, project: string): Flags {
    if project == "" then Flags({}, {}, {})
    else
      var prefix := project + ":";
      Flags(Keep(f.warned, prefix), Keep(f.paused, prefix), Keep(f.stopped, prefix))
  }

  /** Whether a reset of `p` covers a task: `p` is empty or its project, or names the project, a
      colon and the part of the task up to one of its colons. */
  predicate Covers(p: string, project: string, task: string) {
    || p == ""
    || p == project
    || (project + ":" <= p && p[|project| + 1..] + ":" <= task)
  }

  /** The prefix of a reset matches the key of a task exactly when the reset covers it. */
  lemma PrefixCovers(p: string, project: string, task: string)
    requires ColonFree(project) && p != ""
    ensures p + ":" <= Key(project, task) <==> Covers(p, project, task)
  {
    var (prefix, key, n) := (p + ":", Key(project, task), |project|);
    assert key[n] == ':' && prefix[|p|] == ':';
    if prefix <= key {
      assert forall i | 0 <= i < n :: key[i] == project[i] && project[i] != ':';
      assert key[|p|] == prefix[|p|];
      assert p[..n] == prefix[..n] == key[..n] == project;
      if |p| > n {
        assert p[n] == prefix[n] == ':';
        assert project + ":" == p[..n + 1];
        assert prefix == key[..|prefix|];
        assert task == key[n + 1..] && p[n + 1..] + ":" == prefix[n + 1..];
      }
    }
    if p == project {
      assert key[..n + 1] == prefix;
    } else if Covers(p, project, task) {
      assert p == project + ":" + p[n + 1..];
      assert prefix == project + ":" + (p[n + 1..] + ":");
      assert key == project + ":" + task;
    }
  }

  lemma ClearCovers(f: Flags, p: string, project: string, task: string, level: Status)
    requires ColonFree(project)
    ensures Key(project, task) in At(Clear(f, p), level)
            <==> Key(project, task) in At(f, level) && !Covers(p, project, task)
  {
    if p != "" {
      PrefixCovers(p, project, task);
      hide Key, Covers;
    }
  }

  class Alerts {
    var flags: Flags

    constructor ()
      ensures flags == Flags({}, {}, {})
    {
      flags := Flags({}, {}, {});
    }

    /** `fired` tells which callback runs, if one does. */
    method CheckThresholds(project: string, task: string, snapshot: Snapshot) returns (fired: Option<Status>)
      modifies this
      ensures fired == if IsAlert(snapshot.status) && Key(project, task) !in At(old(flags), snapshot.status)
                       then Some(snapshot.status) else None
      ensures fired == Some(Stopped) <==> snapshot.status == Stopped && Key(project, task) !in old(flags).stopped
      ensures fired == Some(Paused) <==> snapshot.status == Paused && Key(project, task) !in old(flags).paused
      ensures fired == Some(Warning) <==> snapshot.status == Warning && Key(project, task) !in old(flags).warned
      ensures fired == None || fired == Some(snapshot.status)
      ensures flags == Notify(old(flags), Key(project, task), snapshot.status)
    {
      var key := Key(project, task);
      fired := None;
      if snapshot.status == Stopped {
        if key !in flags.stopped {
          flags := flags.(stopped := flags.stopped + {key});
          fired := Some(Stopped);
        }
      } else if snapshot.status == Paused {
        if key !in flags.paused {
          flags := flags.(paused := flags.paused + {key});
          fired := Some(Paused);
        }
      } else if snapshot.status == Warning {
        if key !in flags.warned {
          flags := flags.(warned := flags.warned + {key});
          fired := Some(Warning);
        }
      }
      assert forall s: set<string> :: key in s ==> s + {key} == s;
    }

    /** Afterwards a task's level is notified exactly if it was and the reset does not cover it. */
    method ResetWarnings(project: string)
      modifies this
      ensures flags == Clear(old(flags), project)
      ensures forall p, t, level | ColonFree(p) ::
                Key(p, t) in At(flags, level) <==> Key(p, t) in At(old(flags), level) && !Covers(project, p, t)
    {
      if project != "" {
        var prefix := project + ":";
        flags := flags.(warned := set k | k in flags.warned && !(prefix <= k));
        flags := flags.(paused := set k | k in flags.paused && !(prefix <= k));
        flags := flags.(stopped := set k | k in flags.stopped && !(prefix <= k));
      } else {
        flags := Flags({}, {}, {});
      }
      forall p, t, level | ColonFree(p)
        ensures Key(p, t) in At(flags, level) <==> Key(p, t) in At(old(flags), level) && !Covers(project, p, t)
      {
        ClearCovers(old(flags), project, p, t, level);
      }
    }
  }

  // ---------------------------------------------------------------------------------------
  // Whole runs
  // ---------------------------------------------------------------------------------------

  datatype Event = Checked(project: string, task: string, level: Status) | Reset(project: string)

  function Run(es: seq<Event>): Flags {
    if es == [] then Flags({}, {}, {})
    else
      var f := Run(es[..|es| - 1]);
      match es[|es| - 1]
      case Checked(project, task, level) => Notify(f, Key(project, task), level)
      case Reset(project) => Clear(f, project)
  }

  /** The reference: this task reached this level since the last reset that covers it. */
  predicate Alerted(es: seq<Event>, project: string, task: string, level: Status) {
    if es == [] then false
    else match es[|es| - 1]
      case Checked(p, t, l) =>
        (p == project && t == task && l == level) || Alerted(es[..|es| - 1], project, task, level)
      case Reset(p) => !Covers(p, project, task) && Alerted(es[..|es| - 1], project, task, level)
  }

  /** Thresholds are checked for projects whose id was validated; resets take any id. */
  predicate PlainProjects(es: seq<Event>) {
    forall i | 0 <= i < |es| && es[i].Checked? :: ColonFree(es[i].project)
  }

  /** A reset without a colon in its id covers one project. */
  lemma PrefixIsProject(p: string, project: string, task: string)
    requires ColonFree(p) && ColonFree(project)
    ensures p + ":" <= Key(project, task) <==> p == project
  {
    if p + ":" <= Key(project, task) {
      var rest := Key(project, task)[|p| + 1..];
      assert Key(project, task) == p + ":" + rest;
      TaskKeyInjective(p, rest, project, task);
    }
    if p == project {
      assert Key(project, task)[..|p| + 1] == p + ":";
    }
  }

  /** A callback runs for a task and level exactly when the task has not reached that level since
      the last reset covering it: once per level, and again only after a reset. */
  lemma {:induction false} FlaggedIffAlerted(es: seq<Event>, project: string, task: string, level: Status)
    requires PlainProjects(es) && ColonFree(project) && IsAlert(level)
    ensures Key(project, task) in At(Run(es), level) <==> Alerted(es, project, task, level)
  {
    if es != [] {
      var front := es[..|es| - 1];
      FlaggedIffAlerted(front, project, task, level);
      match es[|es| - 1]
      case Checked(p, t, l) =>
        TaskKeyInjective(p, t, project, task);
      case Reset(p) =>
        ClearCovers(Run(front), p, project, task, level);
    }
  }

  /** A reset of "a:b" clears the flag of a task of project "a", and leaves another one. */
  lemma ResetReachesIntoProject(f: Flags)
    requires {Key("a", "b:c"), Key("a", "c")} <= f.warned
    ensures Key("a", "b:c") !in Clear(f, "a:b").warned
    ensures Key("a", "c") in Clear(f, "a:b").warned
  {
    hide Key, Clear;
    ClearCovers(f, "a:b", "a", "b:c", Warning);
    ClearCovers(f, "a:b", "a", "c", Warning);
    assert "a:b"[2..] == "b" && "a" + ":" == "a:b"[..2];
    assert "b" + ":" == "b:c"[..2];
    assert "b:"[0] != "c"[0];
  }
}
