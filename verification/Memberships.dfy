/** Converging a role's memberships on the server to `spec.inRoles` by GRANT and REVOKE. */
module Memberships {
  import opened Machines
  import opened Sorting

  datatype Statement = Grant(group: string) | Revoke(group: string)

  /** What a statement does to the set of groups the role is a member of. */
  function Applied(members: set<string>, s: Statement): set<string>
  {
    match s
    case Grant(group) => members + {group}
    case Revoke(group) => members - {group}
  }

  /** The groups on which the server and the wish still differ. */
  function Difference(members: set<string>, wanted: set<string>): set<string>
  {
    (members - wanted) + (wanted - members)
  }

  /** The entries of `wanted` the role is not yet a member of, in order and with their repetitions. */
  function Missing(wanted: seq<string>, members: set<string>): seq<string>
  {
    if wanted == [] then []
    else
      var last := wanted[|wanted| - 1];
      Missing(wanted[..|wanted| - 1], members) + if last in members then [] else [last]
  }

  function GrantAll(groups: seq<string>): seq<Statement>
  {
    seq(|groups|, i requires 0 <= i < |groups| => Grant(groups[i]))
  }

  function RevokeAll(groups: seq<string>): seq<Statement>
  {
    seq(|groups|, i requires 0 <= i < |groups| => Revoke(groups[i]))
  }

  /** One connection to the server. `issued` are the statements sent on it, `failures` counts the error answers. */
  class Session {
    var members: set<string>
    var issued: seq<Statement>
    ghost var failures: nat

    constructor (members: set<string>)
      ensures this.members == members && issued == [] && failures == 0
    {
      this.members, issued, failures := members, [], 0;
    }

    /** A statement that failed may still have taken effect. */
    method Exec(s: Statement) returns (ok: bool)
      modifies this
      ensures issued == old(issued) + [s] && failures == old(failures) + if ok then 0 else 1
      ensures members == Applied(old(members), s) || (!ok && members == old(members))
    {
      issued := issued + [s];
      ok := *;
      var arrived: bool := *;
      if ok || arrived {
        members := Applied(members, s);
      }
      failures := failures + if ok then 0 else 1;
    }

    method Query() returns (rows: Option<set<string>>)
      modifies this`failures
      ensures rows.Some? ==> rows.value == members
      ensures failures == old(failures) + if rows.None? then 1 else 0
    {
      if * {
        failures, rows := failures + 1, None;
      } else {
        rows := Some(members);
      }
    }

    /** Grants what is missing in the order of `wanted`, then revokes what is not listed in any order (`revoked`). On
        success the memberships are exactly the wanted ones, and every statement sent was about a membership that was
        wrong to begin with. It fails exactly at the first error answer, and cut short it has never made the difference
        larger, so that it can be run again. */
    method Converge(wanted: seq<string>) returns (ok: bool, ghost revoked: seq<string>)
      modifies this
      ensures failures == old(failures) + if ok then 0 else 1
      ensures ok ==> members == Elements(wanted)
      ensures Difference(members, Elements(wanted)) <= Difference(old(members), Elements(wanted))
      ensures Distinct(revoked) && Elements(revoked) <= old(members) - Elements(wanted)
      ensures ok ==> Elements(revoked) == old(members) - Elements(wanted)
      ensures issued <= old(issued) + GrantAll(Missing(wanted, old(members))) + RevokeAll(revoked)
      ensures ok ==> issued == old(issued) + GrantAll(Missing(wanted, old(members))) + RevokeAll(revoked)
    {
      revoked := [];
      var rows := Query();
      if rows.None? {
        return false, [];
      }
      var desired;
      ok, desired := GrantMissing(rows.value, wanted);
      if ok {
        ok, revoked := RevokeUnlisted(rows.value, desired);
      }
    }

    method GrantMissing(current: set<string>, wanted: seq<string>) returns (ok: bool, desired: set<string>)
      requires current == members
      modifies this
      ensures failures == old(failures) + if ok then 0 else 1
      ensures current <= members <= current + Elements(wanted)
      ensures issued <= old(issued) + GrantAll(Missing(wanted, current))
      ensures ok ==> desired == Elements(wanted) && members == current + desired
      ensures ok ==> issued == old(issued) + GrantAll(Missing(wanted, current))
    {
      desired := {};
      for i := 0 to |wanted|
        invariant desired == Elements(wanted[..i])
        invariant members == current + desired && failures == old(failures)
        invariant issued == old(issued) + GrantAll(Missing(wanted[..i], current))
      {
        var group := wanted[i];
        NextWanted(wanted, current, i);
        desired := desired + {group};
        if group !in current {
          ok := Exec(Grant(group));
          if !ok {
            assert issued == old(issued) + GrantAll(Missing(wanted[..i + 1], current));
            MissingOfPrefix(wanted, current, i + 1);
            return false, desired;
          }
        }
      }
      assert wanted[..|wanted|] == wanted;
      ok := true;
    }

    method RevokeUnlisted(current: set<string>, desired: set<string>) returns (ok: bool, ghost revoked: seq<string>)
      requires members == current + desired
      modifies this
      ensures failures == old(failures) + if ok then 0 else 1
      ensures Distinct(revoked) && Elements(revoked) <= current - desired
      ensures desired <= members <= current + desired
      ensures issued == old(issued) + RevokeAll(revoked)
      ensures ok ==> members == desired && Elements(revoked) == current - desired
    {
      revoked := [];
      var rest := current;
      while rest != {}
        invariant rest <= current
        invariant members == desired + rest && failures == old(failures)
        invariant Distinct(revoked) && Elements(revoked) == current - rest - desired
        invariant issued == old(issued) + RevokeAll(revoked)
      {
        var group :| group in rest;
        rest := rest - {group};
        if group !in desired {
          AppendDistinct(revoked, group);
          revoked := revoked + [group];
          ok := Exec(Revoke(group));
          if !ok {
            return false, revoked;
          }
        }
      }
      ok := true;
    }
  }

  lemma NextWanted(wanted: seq<string>, members: set<string>, i: nat)
    requires i < |wanted|
    ensures Elements(wanted[..i + 1]) == Elements(wanted[..i]) + {wanted[i]}
    ensures GrantAll(Missing(wanted[..i + 1], members))
            == GrantAll(Missing(wanted[..i], members)) + if wanted[i] in members then [] else [Grant(wanted[i])]
  {
    assert wanted[..i + 1] == wanted[..i] + [wanted[i]];
    assert wanted[..i + 1][..i] == wanted[..i];
  }

  lemma AppendDistinct(groups: seq<string>, group: string)
    requires Distinct(groups) && group !in Elements(groups)
    ensures Distinct(groups + [group]) && Elements(groups + [group]) == Elements(groups) + {group}
  {
    assert forall g :: g in groups + [group] <==> g in groups || g == group;
  }

  lemma {:induction false} MissingOfPrefix(wanted: seq<string>, members: set<string>, n: nat)
    requires n <= |wanted|
    ensures Missing(wanted[..n], members) <= Missing(wanted, members)
    ensures GrantAll(Missing(wanted[..n], members)) <= GrantAll(Missing(wanted, members))
  {
    if n < |wanted| {
      assert wanted[..|wanted| - 1][..n] == wanted[..n];
      MissingOfPrefix(wanted[..|wanted| - 1], members, n);
    } else {
      assert wanted[..n] == wanted;
    }
  }

  /** Whether every statement, in order, changes something. */
  predicate AllNeeded(members: set<string>, statements: seq<Statement>)
    decreases statements
  {
    statements == [] ||
    (Applied(members, statements[0]) != members && AllNeeded(Applied(members, statements[0]), statements[1..]))
  }

  lemma {:induction false} NeededAppend(members: set<string>, first: seq<Statement>, second: seq<Statement>)
    ensures AllNeeded(members, first + second)
        <==> AllNeeded(members, first) && AllNeeded(AppliedAll(members, first), second)
    decreases first
  {
    if first == [] {
      assert first + second == second;
    } else {
      assert (first + second)[1..] == first[1..] + second;
      NeededAppend(Applied(members, first[0]), first[1..], second);
    }
  }

  function AppliedAll(members: set<string>, statements: seq<Statement>): set<string>
    decreases statements
  {
    if statements == [] then members else AppliedAll(Applied(members, statements[0]), statements[1..])
  }

  lemma {:induction false} GrantsNeeded(members: set<string>, groups: seq<string>)
    ensures AppliedAll(members, GrantAll(groups)) == members + Elements(groups)
    ensures AllNeeded(members, GrantAll(groups)) <==> Distinct(groups) && Elements(groups) !! members
    decreases groups
  {
    if groups != [] {
      var g, rest := groups[0], groups[1..];
      assert GrantAll(groups)[1..] == GrantAll(rest);
      GrantsNeeded(members + {g}, rest);
      DistinctFirst(groups);
    }
  }

  lemma DistinctFirst(groups: seq<string>)
    requires groups != []
    ensures Elements(groups) == {groups[0]} + Elements(groups[1..])
    ensures Distinct(groups) <==> Distinct(groups[1..]) && groups[0] !in Elements(groups[1..])
  {
    var g, rest := groups[0], groups[1..];
    assert forall j | 0 < j < |groups| :: groups[j] == rest[j - 1];
    if Distinct(groups) {
      assert forall j | 0 <= j < |rest| :: rest[j] == groups[j + 1];
    } else {
      var i, j :| 0 <= i < j < |groups| && groups[i] == groups[j];
      assert rest[j - 1] == groups[j] && rest[j - 1] in Elements(rest);
    }
  }

  lemma {:induction false} RevokesNeeded(members: set<string>, groups: seq<string>)
    requires Distinct(groups) && Elements(groups) <= members
    ensures AllNeeded(members, RevokeAll(groups))
    decreases groups
  {
    if groups != [] {
      assert RevokeAll(groups)[1..] == RevokeAll(groups[1..]);
      assert groups[0] in Elements(groups);
      forall g | g in Elements(groups[1..]) ensures g in members - {groups[0]} {
        assert g in Elements(groups);
      }
      RevokesNeeded(members - {groups[0]}, groups[1..]);
    }
  }

  /** A successful pass sends only statements that change something exactly when no group the role lacks is listed
      twice; a group listed twice is granted twice. */
  lemma NeedlessExactlyOnRepetition(current: set<string>, wanted: seq<string>, revoked: seq<string>)
    requires Distinct(revoked) && Elements(revoked) <= current - Elements(wanted)
    ensures AllNeeded(current, GrantAll(Missing(wanted, current)) + RevokeAll(revoked))
            <==> Distinct(Missing(wanted, current))
  {
    var missing := Missing(wanted, current);
    MissingElements(wanted, current);
    GrantsNeeded(current, missing);
    RevokesNeeded(current + Elements(missing), revoked);
    NeededAppend(current, GrantAll(missing), RevokeAll(revoked));
  }

  lemma {:induction false} MissingElements(wanted: seq<string>, members: set<string>)
    ensures Elements(Missing(wanted, members)) == Elements(wanted) - members
  {
    if wanted != [] {
      var front, last := wanted[..|wanted| - 1], wanted[|wanted| - 1];
      MissingElements(front, members);
      assert forall g :: g in wanted <==> g in front || g == last by {
        assert wanted == front + [last];
      }
      assert Elements(wanted) == Elements(front) + {last};
      assert Elements(Missing(wanted, members))
          == Elements(Missing(front, members)) + (if last in members then {} else {last});
    }
  }

  /** A statement that changes something brings the server strictly closer to the wish, the others keep the distance. */
  lemma StatementsShrinkDifference(members: set<string>, wanted: set<string>, s: Statement)
    requires s.Grant? <==> s.group in wanted
    ensures var after := Applied(members, s);
            if after == members then s.group !in Difference(members, wanted)
            else Difference(after, wanted) == Difference(members, wanted) - {s.group} < Difference(members, wanted)
  {
    if Applied(members, s) != members {
      assert s.group in Difference(members, wanted);
    }
  }
}
