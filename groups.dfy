/** The group filter (shouldIncludeField): decides from a field's groups, the
    requested groups and the group mode whether the field is serialized. */
module Groups {
  import opened Config

  /** slices.Contains over the field's groups for some requested group: the
      loop of the OR mode. */
  function AnyRequested(fieldGroups: seq<string>, groups: seq<string>): (r: bool)
    ensures r <==> exists k :: 0 <= k < |groups| && groups[k] in fieldGroups
  {
    if groups == [] then false
    else if groups[0] in fieldGroups then true
    else
      var r := AnyRequested(fieldGroups, groups[1..]);
      assert forall k :: 1 <= k < |groups| ==> groups[k] == groups[1..][k - 1];
      r
  }

  /** slices.Contains over the field's groups for every requested group: the
      loop of the AND mode. */
  function AllRequested(fieldGroups: seq<string>, groups: seq<string>): (r: bool)
    ensures r <==> forall k :: 0 <= k < |groups| ==> groups[k] in fieldGroups
  {
    if groups == [] then true
    else if groups[0] !in fieldGroups then false
    else
      var r := AllRequested(fieldGroups, groups[1..]);
      assert forall k :: 1 <= k < |groups| ==> groups[k] == groups[1..][k - 1];
      r
  }

  /** shouldIncludeField. With no requested groups every field is included;
      otherwise a field without groups never is; OR mode asks for a shared
      group, AND mode for all requested groups; any other mode includes
      nothing. */
  function ShouldIncludeField(fieldGroups: seq<string>, mode: GroupMode, groups: seq<string>): (r: bool)
    ensures groups == [] ==> r
    ensures groups != [] && fieldGroups == [] ==> !r
    ensures groups != [] && mode == GroupModeOr ==>
              (r <==> exists k :: 0 <= k < |groups| && groups[k] in fieldGroups)
    ensures groups != [] && mode == GroupModeAnd ==>
              (r <==> fieldGroups != [] && forall k :: 0 <= k < |groups| ==> groups[k] in fieldGroups)
    ensures groups != [] && mode != GroupModeOr && mode != GroupModeAnd ==> !r
  {
    if |groups| == 0 then true
    else if |fieldGroups| == 0 then false
    else if mode == GroupModeOr then AnyRequested(fieldGroups, groups)
    else if mode == GroupModeAnd then AllRequested(fieldGroups, groups)
    else false
  }

  /** OR mode is monotone: requesting more groups (as long as some group was
      requested to begin with) never drops a field. */
  lemma OrMonotone(fieldGroups: seq<string>, groups: seq<string>, more: seq<string>)
    requires groups != []
    requires forall g :: g in groups ==> g in more
    requires ShouldIncludeField(fieldGroups, GroupModeOr, groups)
    ensures ShouldIncludeField(fieldGroups, GroupModeOr, more)
  {
    var k :| 0 <= k < |groups| && groups[k] in fieldGroups;
    assert groups[k] in more;
    var j :| 0 <= j < |more| && more[j] == groups[k];
  }

  /** AND mode is antitone: requesting fewer groups (but at least one) never
      drops a field. */
  lemma AndAntitone(fieldGroups: seq<string>, groups: seq<string>, fewer: seq<string>)
    requires fewer != []
    requires forall g :: g in fewer ==> g in groups
    requires ShouldIncludeField(fieldGroups, GroupModeAnd, groups)
    ensures ShouldIncludeField(fieldGroups, GroupModeAnd, fewer)
  {
    assert fewer[0] in groups;
    forall k | 0 <= k < |fewer|
      ensures fewer[k] in fieldGroups
    {
      assert fewer[k] in groups;
      var j :| 0 <= j < |groups| && groups[j] == fewer[k];
    }
  }

  /** The OR-mode union law: a field included under {A} or under {B} is
      included under {A, B}. */
  lemma OrUnion(fieldGroups: seq<string>, a: string, b: string)
    requires ShouldIncludeField(fieldGroups, GroupModeOr, [a]) || ShouldIncludeField(fieldGroups, GroupModeOr, [b])
    ensures ShouldIncludeField(fieldGroups, GroupModeOr, [a, b])
  {
    if ShouldIncludeField(fieldGroups, GroupModeOr, [a]) {
      OrMonotone(fieldGroups, [a], [a, b]);
    } else {
      OrMonotone(fieldGroups, [b], [a, b]);
    }
  }

  /** Under AND mode a field included under {A, B} is included under {A} and
      under {B}; the converse fails, e.g. for a field in group A only. */
  lemma AndSplit(fieldGroups: seq<string>, a: string, b: string)
    requires ShouldIncludeField(fieldGroups, GroupModeAnd, [a, b])
    ensures ShouldIncludeField(fieldGroups, GroupModeAnd, [a])
    ensures ShouldIncludeField(fieldGroups, GroupModeAnd, [b])
    ensures a != b ==> ShouldIncludeField([a], GroupModeAnd, [a]) && !ShouldIncludeField([a], GroupModeAnd, [a, b])
  {
    AndAntitone(fieldGroups, [a, b], [a]);
    AndAntitone(fieldGroups, [a, b], [b]);
    if a != b {
      assert [a, b][1] !in [a];
    }
  }
}
