/** The enforcement controller: when the cost alarm goes to ALARM it attaches the deny policy
    to every configured role, group and user, one call at a time, and announces it; when the
    alarm returns to OK it detaches the policy the same way. IAM is the set of principals the
    policy is attached to, SNS the list of published notifications. */
module CostControl {
  import opened Wrappers
  import opened Text
  import opened Prefixes

  datatype Kind = Role | Group | User

  /** An IAM role, group or user, by name. */
  datatype Principal = Principal(kind: Kind, name: string)

  /** One `attach_*_policy` or `detach_*_policy` call. */
  datatype IamCall = IamCall(attach: bool, principal: Principal)

  /** One `sns.publish` call. */
  datatype Notification = Notification(topicArn: string, subject: string, message: string)

  /** The handler's configuration, read from the environment when the module is loaded. */
  datatype Config = Config(topicArn: string, policyArn: string, roles: seq<string>, groups: seq<string>, users: seq<string>)

  const Separator: char := ','
  const AttachedSubject: string := "Amazon Braket Cost Control Policy Attached"
  const DetachedSubject: string := "Amazon Braket Cost Control Policy Detached"

  /** `list(filter(None, os.environ[...].strip().split(',')))` for the three lists. */
  function ParseConfig(topicArn: string, policyArn: string, rolesEnv: string, groupsEnv: string, usersEnv: string): (c: Config)
    ensures c.topicArn == topicArn && c.policyArn == policyArn
    ensures forall x :: x in c.roles <==> x in Split(Strip(rolesEnv), Separator) && x != []
    ensures forall x :: x in c.groups <==> x in Split(Strip(groupsEnv), Separator) && x != []
    ensures forall x :: x in c.users <==> x in Split(Strip(usersEnv), Separator) && x != []
    ensures forall i :: 0 <= i < |c.roles| ==> c.roles[i] != [] && Separator !in c.roles[i]
    ensures forall i :: 0 <= i < |c.groups| ==> c.groups[i] != [] && Separator !in c.groups[i]
    ensures forall i :: 0 <= i < |c.users| ==> c.users[i] != [] && Separator !in c.users[i]
  {
    Config(topicArn, policyArn, ParseList(rolesEnv, Separator), ParseList(groupsEnv, Separator), ParseList(usersEnv, Separator))
  }

  /** Names of one kind as principals, in list order. */
  function Tagged(kind: Kind, names: seq<string>): (ps: seq<Principal>)
    ensures |ps| == |names|
    ensures forall i :: 0 <= i < |names| ==> ps[i] == Principal(kind, names[i])
  {
    seq(|names|, i requires 0 <= i < |names| => Principal(kind, names[i]))
  }

  /** Every principal the handler calls IAM for, in call order: the roles, then the groups,
      then the users. */
  function Principals(c: Config): seq<Principal>
  {
    Tagged(Role, c.roles) + Tagged(Group, c.groups) + Tagged(User, c.users)
  }

  /** The attached set after attaching (or detaching) the policy for `ps`, one at a time. */
  function Applied(attached: set<Principal>, attach: bool, ps: seq<Principal>): (r: set<Principal>)
    ensures forall p :: p !in ps ==> (p in r <==> p in attached)
    ensures ps != [] ==> (ps[|ps| - 1] in r <==> attach)
  {
    if ps == [] then attached
    else
      var before := Applied(attached, attach, ps[..|ps| - 1]);
      var p := ps[|ps| - 1];
      if attach then before + {p} else before - {p}
  }

  /** The attached set after the calls for `ps`, in closed form: the named principals are
      all added, or all removed. */
  function Effect(attached: set<Principal>, attach: bool, ps: seq<Principal>): set<Principal>
  {
    var named := set p | p in ps;
    if attach then attached + named else attached - named
  }

  /** The IAM calls issued for `ps`, in order. */
  function Calls(attach: bool, ps: seq<Principal>): (calls: seq<IamCall>)
    ensures |calls| == |ps|
    ensures forall i :: 0 <= i < |ps| ==> calls[i] == IamCall(attach, ps[i])
  {
    if ps == [] then [] else Calls(attach, ps[..|ps| - 1]) + [IamCall(attach, ps[|ps| - 1])]
  }

  const RolesLabel: string := " to roles ["
  const GroupsLabel: string := "], groups ["
  const UsersLabel: string := "] and users ["
  const Closing: string := "]."

  /** The opening of the message, up to the policy ARN. */
  function Intro(attach: bool): string
  {
    "An Amazon CloudWatch alarm state change triggered " + (if attach then "attachment" else "detachment")
      + " of policy "
  }

  /** The notification sent after every call succeeded: to the configured topic, with the
      subject of the direction taken. */
  function Notice(c: Config, attach: bool): (n: Notification)
    ensures n.topicArn == c.topicArn
    ensures n.subject == AttachedSubject <==> attach
    ensures n.subject == DetachedSubject <==> !attach
  {
    Notification(c.topicArn, if attach then AttachedSubject else DetachedSubject,
      Message(Intro(attach), c.policyArn, Join(c.roles, Separator), Join(c.groups, Separator), Join(c.users, Separator)))
  }

  /** The message after its opening: the policy, then each joined list between brackets. */
  function Message(intro: string, policy: string, r: string, g: string, u: string): string
  {
    intro + policy + RolesLabel + r + GroupsLabel + g + UsersLabel + u + Closing
  }

  /** Where the policy and the three joined lists sit in a message. */
  lemma MessageLayout(intro: string, policy: string, r: string, g: string, u: string)
    ensures var m := Message(intro, policy, r, g, u);
      var i := |intro| + |policy| + |RolesLabel|;
      var j := i + |r| + |GroupsLabel|;
      var k := j + |g| + |UsersLabel|;
      && |m| == k + |u| + |Closing|
      && m[|intro|..|intro| + |policy|] == policy
      && m[i..i + |r|] == r && m[j..j + |g|] == g && m[k..k + |u|] == u
  {
    PiecesAt(intro, policy, RolesLabel, r, GroupsLabel, g, UsersLabel, u, Closing);
  }

  /** The same, for any labels between the pieces. */
  lemma PiecesAt(intro: string, policy: string, l1: string, r: string, l2: string, g: string, l3: string,
                 u: string, l4: string)
    ensures var m := intro + policy + l1 + r + l2 + g + l3 + u + l4;
      var i := |intro| + |policy| + |l1|;
      var j := i + |r| + |l2|;
      var k := j + |g| + |l3|;
      && |m| == k + |u| + |l4|
      && m[|intro|..|intro| + |policy|] == policy
      && m[i..i + |r|] == r && m[j..j + |g|] == g && m[k..k + |u|] == u
  {
    var m := intro + policy + l1 + r + l2 + g + l3 + u + l4;
    var lead := intro + policy;
    var x := lead + l1;
    var y := x + r + l2;
    var z := y + g + l3;
    assert lead <= x <= y <= z <= m;
    SliceOfPrefix(m, lead, |intro|, |lead|);
    SliceRight(intro, policy);
    SliceOfPrefix(m, x + r, |x|, |x| + |r|);
    SliceRight(x, r);
    SliceOfPrefix(m, y + g, |y|, |y| + |g|);
    SliceRight(y, g);
    SliceOfPrefix(m, z + u, |z|, |z| + |u|);
    SliceRight(z, u);
  }

  /** Whether the raising IAM call is among the first `n` calls. */
  predicate FailsWithin(failAt: Option<nat>, n: nat)
  {
    failAt.Some? && failAt.value < n
  }

  // ---- properties of the attached set ----

  /** Processing `xs` and then `ys` is processing `xs + ys`. */
  lemma {:induction false} AppliedConcat(attached: set<Principal>, attach: bool, xs: seq<Principal>, ys: seq<Principal>)
    ensures Applied(attached, attach, xs + ys) == Applied(Applied(attached, attach, xs), attach, ys)
  {
    if ys != [] {
      var init, last := ys[..|ys| - 1], ys[|ys| - 1];
      assert xs + ys == (xs + init) + [last];
      AppliedConcat(attached, attach, xs, init);
      AppliedSnoc(attached, attach, xs + init, last);
      AppliedSnoc(Applied(attached, attach, xs), attach, init, last);
    } else {
      assert xs + ys == xs;
    }
  }

  /** After the calls for `ps`, a principal in `ps` has the policy exactly when the calls
      attached it; any other principal is as it was. */
  lemma {:induction false} AppliedMembership(attached: set<Principal>, attach: bool, ps: seq<Principal>, p: Principal)
    ensures p in Applied(attached, attach, ps) <==> (if p in ps then attach else p in attached)
  {
    if ps != [] {
      var init := ps[..|ps| - 1];
      AppliedMembership(attached, attach, init, p);
      assert p in ps <==> p in init || p == ps[|ps| - 1] by {
        assert ps == init + [ps[|ps| - 1]];
      }
    }
  }

  /** After a successful ALARM every configured principal has the policy, whatever the
      previous state; after a successful OK none has it. Nobody else changes. */
  lemma AlarmAndOkEffect(attached: set<Principal>, c: Config, p: Principal)
    ensures p in Principals(c) ==> p in Applied(attached, true, Principals(c)) && p !in Applied(attached, false, Principals(c))
    ensures p !in Principals(c) ==>
      (p in Applied(attached, true, Principals(c)) <==> p in attached) && (p in Applied(attached, false, Principals(c)) <==> p in attached)
  {
    AppliedMembership(attached, true, Principals(c), p);
    AppliedMembership(attached, false, Principals(c), p);
  }

  /** Replaying the same alarm state leaves the same attached set. */
  lemma ReplayIdempotent(attached: set<Principal>, attach: bool, ps: seq<Principal>)
    ensures Applied(Applied(attached, attach, ps), attach, ps) == Applied(attached, attach, ps)
  {
    var once := Applied(attached, attach, ps);
    forall p | true
      ensures p in Applied(once, attach, ps) <==> p in once
    {
      AppliedMembership(once, attach, ps, p);
      AppliedMembership(attached, attach, ps, p);
    }
  }

  /** The message is the opening of the direction taken followed by the policy and the three
      lists laid out as `MessageLayout` describes; each list reads back as the configured one
      when no name starts or ends with whitespace. */
  lemma NoticeListsReadBack(c: Config, attach: bool)
    requires forall i :: 0 <= i < |c.roles| ==> c.roles[i] != [] && Separator !in c.roles[i]
    requires forall i :: 0 <= i < |c.roles| ==> !IsSpace(c.roles[i][0]) && !IsSpace(c.roles[i][|c.roles[i]| - 1])
    requires forall i :: 0 <= i < |c.groups| ==> c.groups[i] != [] && Separator !in c.groups[i]
    requires forall i :: 0 <= i < |c.groups| ==> !IsSpace(c.groups[i][0]) && !IsSpace(c.groups[i][|c.groups[i]| - 1])
    requires forall i :: 0 <= i < |c.users| ==> c.users[i] != [] && Separator !in c.users[i]
    requires forall i :: 0 <= i < |c.users| ==> !IsSpace(c.users[i][0]) && !IsSpace(c.users[i][|c.users[i]| - 1])
    ensures Notice(c, attach).message
      == Message(Intro(attach), c.policyArn, Join(c.roles, Separator), Join(c.groups, Separator), Join(c.users, Separator))
    ensures ParseList(Join(c.roles, Separator), Separator) == c.roles
    ensures ParseList(Join(c.groups, Separator), Separator) == c.groups
    ensures ParseList(Join(c.users, Separator), Separator) == c.users
  {
    ParseListJoin(c.roles, Separator);
    ParseListJoin(c.groups, Separator);
    ParseListJoin(c.users, Separator);
  }

  /** The IAM side of the controller and the notifications it has published. */
  class Enforcement {
    const config: Config
    var attached: set<Principal>
    var calls: seq<IamCall>
    var notifications: seq<Notification>

    constructor (config: Config, attached: set<Principal>)
      ensures this.config == config && this.attached == attached
      ensures calls == [] && notifications == []
    {
      this.config := config;
      this.attached := attached;
      calls := [];
      notifications := [];
    }

    /** `handler`, given the alarm's new state value. `failAt` numbers the IAM call that
        raises, if any: the calls before it take effect, it and every later step do not
        happen, and the exception escapes. `publishFails` says whether `sns.publish` raises
        (after every IAM call has taken effect). */
    method Handler(value: string, failAt: Option<nat>, publishFails: bool) returns (res: Outcome)
      modifies this
      ensures value != "ALARM" && value != "OK" ==>
        res == Pass && attached == old(attached) && calls == old(calls) && notifications == old(notifications)
      ensures (value == "ALARM" || value == "OK") && !FailsWithin(failAt, |Principals(config)|) ==>
        var attach := value == "ALARM";
        && res == (if publishFails then Fail(StoreFailed) else Pass)
        && attached == Applied(old(attached), attach, Principals(config))
        && calls == old(calls) + Calls(attach, Principals(config))
        && notifications == old(notifications) + (if publishFails then [] else [Notice(config, attach)])
      ensures (value == "ALARM" || value == "OK") && FailsWithin(failAt, |Principals(config)|) ==>
        var attach, k := value == "ALARM", failAt.value;
        && res == Fail(StoreFailed)
        && attached == Applied(old(attached), attach, Principals(config)[..k])
        && calls == old(calls) + Calls(attach, Principals(config)[..k + 1])
        && notifications == old(notifications)
    {
      if value != "ALARM" && value != "OK" {
        return Pass;
      }
      var attach := value == "ALARM";
      var ok := ApplyAll(attach, Principals(config), failAt);
      if !ok || publishFails {
        return Fail(StoreFailed);
      }
      notifications := notifications + [Notice(config, attach)];
      res := Pass;
    }

    /** The three loops, over the roles, then the groups, then the users. They issue the same
        calls, in the same order, as one loop over `Principals(config)`, which is how they are
        written here; the caller passes that list as `ps`. */
    method ApplyAll(attach: bool, ps: seq<Principal>, failAt: Option<nat>) returns (ok: bool)
      modifies this`attached, this`calls
      ensures ok <==> !FailsWithin(failAt, |ps|)
      ensures ok ==>
        attached == Applied(old(attached), attach, ps) && calls == old(calls) + Calls(attach, ps)
      ensures !ok ==>
        attached == Applied(old(attached), attach, ps[..failAt.value])
        && calls == old(calls) + Calls(attach, ps[..failAt.value + 1])
    {
      ghost var attached0, calls0 := attached, calls;
      var j := 0;
      while j < |ps| && failAt != Some(j)
        invariant j <= |ps| && (failAt.Some? ==> j <= failAt.value)
        invariant attached == Effect(attached0, attach, ps[..j])
        invariant calls == calls0 + Calls(attach, ps[..j])
      {
        var p := ps[j];
        StateStep(attached0, calls0, attach, ps, j, attached, calls);
        calls := calls + [IamCall(attach, p)];
        attached := if attach then attached + {p} else attached - {p};
        j := j + 1;
      }
      AppliedIsEffect(attached0, attach, ps[..j]);
      if j < |ps| {
        StateStep(attached0, calls0, attach, ps, j, attached, calls);
        calls := calls + [IamCall(attach, ps[j])];
        return false;
      }
      PrefixAll(ps);
      ok := true;
    }
  }

  /** One more call: its effect on the attached set and on the call log. */
  lemma AppliedSnoc(attached: set<Principal>, attach: bool, ps: seq<Principal>, p: Principal)
    ensures Applied(attached, attach, ps + [p])
      == if attach then Applied(attached, attach, ps) + {p} else Applied(attached, attach, ps) - {p}
    ensures Calls(attach, ps + [p]) == Calls(attach, ps) + [IamCall(attach, p)]
  {
    assert (ps + [p])[..|ps|] == ps;
  }

  lemma Step(attached: set<Principal>, attach: bool, ps: seq<Principal>, j: nat)
    requires j < |ps|
    ensures Effect(attached, attach, ps[..j + 1])
      == if attach then Effect(attached, attach, ps[..j]) + {ps[j]} else Effect(attached, attach, ps[..j]) - {ps[j]}
    ensures Calls(attach, ps[..j + 1]) == Calls(attach, ps[..j]) + [IamCall(attach, ps[j])]
  {
    assert ps[..j + 1] == ps[..j] + [ps[j]];
    AppliedSnoc(attached, attach, ps[..j], ps[j]);
    NamedSnoc(ps[..j], ps[j]);
  }

  /** One iteration of the loop, on the state it leaves: the attached set and the call log
      after the calls for `ps[..j]`, extended by the call for `ps[j]`. */
  lemma StateStep(attached0: set<Principal>, calls0: seq<IamCall>, attach: bool, ps: seq<Principal>, j: nat,
                  attached: set<Principal>, calls: seq<IamCall>)
    requires j < |ps|
    requires attached == Effect(attached0, attach, ps[..j]) && calls == calls0 + Calls(attach, ps[..j])
    ensures (if attach then attached + {ps[j]} else attached - {ps[j]}) == Effect(attached0, attach, ps[..j + 1])
    ensures calls + [IamCall(attach, ps[j])] == calls0 + Calls(attach, ps[..j + 1])
  {
    Step(attached0, attach, ps, j);
    AppendAssoc(calls0, Calls(attach, ps[..j]), [IamCall(attach, ps[j])]);
  }

  lemma NamedSnoc(ps: seq<Principal>, p: Principal)
    ensures (set q | q in ps + [p]) == (set q | q in ps) + {p}
  {
  }

  /** The one-at-a-time fold and the closed form agree. */
  lemma {:induction false} AppliedIsEffect(attached: set<Principal>, attach: bool, ps: seq<Principal>)
    ensures Applied(attached, attach, ps) == Effect(attached, attach, ps)
  {
    if ps != [] {
      var n := |ps| - 1;
      AppliedIsEffect(attached, attach, ps[..n]);
      Step(attached, attach, ps, n);
      assert ps[..n + 1] == ps;
    }
  }
}
