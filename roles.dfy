/**
 * components/roles.py: self-assignable role buttons. A member's roles are a
 * set of role ids; what the platform does with `add_roles`/`remove_roles` is
 * taken to be exactly that set update.
 */
module Roles {

  import opened Wrappers

  /** The platform's limit on the number of components in one view. */
  const MaxViewChildren: nat := 25

  datatype Role = Role(id: nat, name: string)

  predicate IsDigit(c: char) {
    '0' <= c <= '9'
  }

  function DigitChar(d: nat): char
    requires d < 10
  {
    "0123456789"[d]
  }

  /** Decimal rendering of a non-negative integer, as `f'{n}'` gives it. */
  function Digits(n: nat): (s: string)
    ensures |s| >= 1
    ensures forall i | 0 <= i < |s| :: IsDigit(s[i])
    ensures |s| > 1 ==> s[0] != '0'
    decreases n
  {
    if n < 10 then [DigitChar(n)] else Digits(n / 10) + [DigitChar(n % 10)]
  }

  /** The number a string of decimal digits denotes. */
  function ValueOf(s: string): nat
    requires forall i | 0 <= i < |s| :: IsDigit(s[i])
    decreases |s|
  {
    if s == [] then 0
    else
      assert IsDigit(s[|s| - 1]);
      ValueOf(s[..|s| - 1]) * 10 + (s[|s| - 1] as int - '0' as int)
  }

  /** Rendering then reading back gives the original number. */
  lemma {:induction false} DigitsRoundTrip(n: nat)
    ensures ValueOf(Digits(n)) == n
    decreases n
  {
    if n >= 10 {
      var s := Digits(n);
      assert s[..|s| - 1] == Digits(n / 10);
      DigitsRoundTrip(n / 10);
    }
  }

  /** `role.mention`, the platform's role-mention markup. */
  function Mention(r: Role): string {
    "<@&" + Digits(r.id) + ">"
  }

  /** A button's `custom_id`: `r` followed by the role's id in decimal, from which the id can be read back. */
  function CustomId(r: Role): (cid: string)
    ensures |cid| >= 2 && cid[0] == 'r'
    ensures forall i | 1 <= i < |cid| :: IsDigit(cid[i])
    ensures ValueOf(cid[1..]) == r.id
  {
    DigitsRoundTrip(r.id);
    assert ("r" + Digits(r.id))[1..] == Digits(r.id);
    "r" + Digits(r.id)
  }

  /** Distinct roles get distinct custom ids. */
  lemma {:induction false} CustomIdInjective(a: Role, b: Role)
    requires CustomId(a) == CustomId(b)
    ensures a.id == b.id
  {
    assert ValueOf(CustomId(a)[1..]) == a.id;
    assert ValueOf(CustomId(b)[1..]) == b.id;
  }

  /** The member's roles after one press on the button for role `id`. */
  function Toggle(held: set<nat>, id: nat): (after: set<nat>)
    ensures id in held ==> id !in after
    ensures id !in held ==> id in after
    ensures forall x | x != id :: x in after <==> x in held
  {
    if id in held then held - {id} else held + {id}
  }

  /** Two successful presses in a row restore the original role set. */
  lemma {:induction false} ToggleTwice(held: set<nat>, id: nat)
    ensures Toggle(Toggle(held, id), id) == held
  {
    var after := Toggle(Toggle(held, id), id);
    assert forall x :: x in after <==> x in held;
  }

  datatype Colour = Green | Red

  /** The embed a callback answers with. */
  datatype Reply = Reply(colour: Colour, description: string)

  function RemovedText(r: Role): string {
    "*" + Mention(r) + " removed.*"
  }

  function AddedText(r: Role): string {
    "*" + Mention(r) + " added.*"
  }

  function ErrorText(error: string): string {
    "\U{274C} Something went wrong, please contact a member of staff. Error: `" + error + "`"
  }

  /** The member who pressed a button, with the ids of the roles they hold. */
  class Member {
    var roles: set<nat>

    constructor (roles: set<nat>)
      ensures this.roles == roles
    {
      this.roles := roles;
    }
  }

  class RoleButton {
    const role: Role
    const labelText: string
    const customId: string

    constructor (role: Role)
      ensures this.role == role && labelText == role.name && customId == CustomId(role)
    {
      this.role := role;
      labelText := role.name;
      customId := CustomId(role);
    }

    /**
     * `callback`: remove the role if the member holds it, add it otherwise,
     * and answer in green. `failure` is the text of the AttributeError or
     * HTTPException raised on the way, if any; then nothing changes and the
     * answer is red and quotes it.
     */
    method Callback(member: Member, failure: Option<string>) returns (reply: Reply)
      modifies member
      ensures failure.None? ==> member.roles == Toggle(old(member.roles), role.id)
      ensures failure.None? ==> reply == Reply(Green, if role.id in old(member.roles) then RemovedText(role) else AddedText(role))
      ensures failure.Some? ==> member.roles == old(member.roles) && reply == Reply(Red, ErrorText(failure.value))
    {
      if failure.Some? {
        reply := Reply(Red, ErrorText(failure.value));
      } else if role.id in member.roles {
        member.roles := member.roles - {role.id};
        reply := Reply(Green, RemovedText(role));
      } else {
        member.roles := member.roles + {role.id};
        reply := Reply(Green, AddedText(role));
      }
    }
  }

  /** Two successful presses of one button leave the member's roles as they were. */
  method PressTwice(button: RoleButton, member: Member) returns (first: Reply, second: Reply)
    modifies member
    ensures member.roles == old(member.roles)
    ensures first.colour == Green && second.colour == Green
  {
    first := button.Callback(member, None);
    second := button.Callback(member, None);
    ToggleTwice(old(member.roles), button.role.id);
  }

  function Min(a: nat, b: nat): nat {
    if a <= b then a else b
  }

  /** The roles of a view's buttons, in order. */
  function RolesOf(children: seq<RoleButton>): seq<Role> {
    seq(|children|, i requires 0 <= i < |children| => children[i].role)
  }

  /** The view admits a button while it holds at most this many children. */
  const AsWrittenBound: nat := 25

  class RoleView {
    var children: seq<RoleButton>

    /** `RoleView(*roles)` as written: adds a button while the view holds at most 25 children. */
    constructor AsWritten(roles: seq<Role>)
      ensures RolesOf(children) == roles[..Min(|roles|, AsWrittenBound + 1)]
      ensures forall i | 0 <= i < |children| :: children[i].customId == CustomId(roles[i])
    {
      var added: seq<RoleButton> := [];
      var i := 0;
      while i < |roles|
        invariant 0 <= i <= |roles| && |added| == i <= AsWrittenBound + 1
        invariant forall j | 0 <= j < i :: added[j].role == roles[j] && added[j].customId == CustomId(roles[j])
      {
        if |added| <= AsWrittenBound {
          var b := new RoleButton(roles[i]);
          added := added + [b];
          i := i + 1;
        } else {
          break;
        }
      }
      children := added;
    }

    /** `RoleView(*roles)` with the guard the platform needs: never more than 25 buttons. */
    constructor (roles: seq<Role>)
      ensures |children| <= MaxViewChildren
      ensures RolesOf(children) == roles[..Min(|roles|, MaxViewChildren)]
      ensures forall i | 0 <= i < |children| :: children[i].customId == CustomId(roles[i])
    {
      var added: seq<RoleButton> := [];
      var i := 0;
      while i < |roles|
        invariant 0 <= i <= |roles| && |added| == i <= MaxViewChildren
        invariant forall j | 0 <= j < i :: added[j].role == roles[j] && added[j].customId == CustomId(roles[j])
      {
        if |added| < MaxViewChildren {
          var b := new RoleButton(roles[i]);
          added := added + [b];
          i := i + 1;
        } else {
          break;
        }
      }
      children := added;
    }
  }

  /** The as-written guard overflows: any 26 or more roles give a view one button past the platform's limit. */
  method AsWrittenOverflow(roles: seq<Role>) returns (view: RoleView)
    requires |roles| > MaxViewChildren
    ensures |view.children| == MaxViewChildren + 1
    ensures RolesOf(view.children) == roles[..MaxViewChildren + 1]
  {
    view := new RoleView.AsWritten(roles);
  }
}
