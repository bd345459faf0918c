/**
 * The schema diff engine of the Architect view (`calculateDiff`).
 *
 * A schema is an ordered list of fields. The engine compares the live schema with a
 * proposed full replacement and sorts fields into four groups: added, modified and
 * unchanged (in proposed order) and removed (in current order). Lookups by name go
 * through maps built from each list, so when one list repeats a name the LAST field
 * with that name is the one found.
 *
 * The specification is the group of functions `Lookup`, `Classify`, `Added`,
 * `Modified`, `Unchanged`, `Removed` and `Diff`; the loop-based `CalculateDiff` is
 * proved equal to `Diff`.
 */
module SchemaDiff {
  import opened Wrappers
  import opened Seqs

  /** A schema field; `active` is optional in the source and is carried along, never compared. */
  datatype Field = Field(name: string, fieldType: string, active: Option<bool>)

  type Schema = seq<Field>

  /** A field whose type changed: the current field and the proposed one. */
  datatype Change = Change(before: Field, after: Field)

  datatype DiffResult = DiffResult(added: Schema, removed: Schema, modified: seq<Change>, kept: Schema)

  /** What a name-keyed map built from `s` holds for `name`: the last field of `s` with that name. */
  function Lookup(s: Schema, name: string): (r: Option<Field>)
    ensures r.Some? ==> r.value in s && r.value.name == name
    ensures r.None? ==> forall i :: 0 <= i < |s| ==> s[i].name != name
  {
    if s == [] then None
    else if s[|s| - 1].name == name then Some(s[|s| - 1])
    else
      assert forall i :: 0 <= i < |s| - 1 ==> s[i] == s[..|s| - 1][i];
      Lookup(s[..|s| - 1], name)
  }

  /**
   * Names are unique within a schema. The view assumes it by keying rendered fields on
   * their names (`key={field.name}`, views/Architect.tsx:615, 839, 847); the code never
   * checks it.
   */
  predicate UniqueNames(s: Schema)
  {
    forall i, j :: 0 <= i < j < |s| ==> s[i].name != s[j].name
  }

  /** The verdict on one proposed field. */
  datatype Verdict = Fresh | Retyped(before: Field) | Kept

  function Classify(current: Schema, p: Field): (v: Verdict)
    ensures v.Fresh? <==> forall i :: 0 <= i < |current| ==> current[i].name != p.name
    ensures v.Retyped? ==> v.before in current && v.before.name == p.name && v.before.fieldType != p.fieldType
    ensures v.Kept? ==> exists i :: 0 <= i < |current| && current[i].name == p.name && current[i].fieldType == p.fieldType
  {
    match Lookup(current, p.name)
    case None => Fresh
    case Some(c) => if c.fieldType != p.fieldType then Retyped(c) else Kept
  }

  function Added(current: Schema, proposed: Schema): (r: Schema)
    ensures forall i :: 0 <= i < |r| ==>
      r[i] in proposed && forall j :: 0 <= j < |current| ==> current[j].name != r[i].name
  {
    Filter(proposed, (p: Field) => Classify(current, p).Fresh?)
  }

  function Unchanged(current: Schema, proposed: Schema): (r: Schema)
    ensures forall i :: 0 <= i < |r| ==> r[i] in proposed && Classify(current, r[i]).Kept?
  {
    Filter(proposed, (p: Field) => Classify(current, p).Kept?)
  }

  /** The proposed fields whose type changed, in proposed order. */
  function RetypedFields(current: Schema, proposed: Schema): Schema
  {
    Filter(proposed, (p: Field) => Classify(current, p).Retyped?)
  }

  function Modified(current: Schema, proposed: Schema): (r: seq<Change>)
    ensures |r| <= |proposed|
    ensures forall k :: 0 <= k < |r| ==>
      r[k].after in proposed && r[k].before in current &&
      r[k].before.name == r[k].after.name && r[k].before.fieldType != r[k].after.fieldType
  {
    if proposed == [] then []
    else
      var p := proposed[|proposed| - 1];
      Modified(current, proposed[..|proposed| - 1]) +
        (match Classify(current, p)
         case Retyped(c) => [Change(c, p)]
         case _ => [])
  }

  function Removed(current: Schema, proposed: Schema): (r: Schema)
    ensures forall i :: 0 <= i < |r| ==>
      r[i] in current && forall j :: 0 <= j < |proposed| ==> proposed[j].name != r[i].name
  {
    Filter(current, (c: Field) => Lookup(proposed, c.name).None?)
  }

  function Diff(current: Schema, proposed: Schema): (d: DiffResult)
    ensures |d.added| + |d.modified| + |d.kept| == |proposed|
    ensures |d.removed| <= |current|
  {
    PartitionCount(current, proposed);
    DiffResult(Added(current, proposed), Removed(current, proposed),
               Modified(current, proposed), Unchanged(current, proposed))
  }

  /** The card's "No structural changes detected" notice. */
  predicate NoStructuralChanges(d: DiffResult)
  {
    d.added == [] && d.removed == [] && d.modified == []
  }

  // ---------------------------------------------------------------------------
  // Lookup: last write wins

  /** A field that no later field shadows is the one a lookup of its name finds. */
  lemma {:induction false} LookupFindsLast(s: Schema, i: nat)
    requires i < |s|
    requires forall j :: i < j < |s| ==> s[j].name != s[i].name
    ensures Lookup(s, s[i].name) == Some(s[i])
  {
    if i < |s| - 1 {
      var init := s[..|s| - 1];
      assert init[i] == s[i];
      LookupFindsLast(init, i);
    }
  }

  lemma LookupUnique(s: Schema, f: Field)
    requires UniqueNames(s) && f in s
    ensures Lookup(s, f.name) == Some(f)
  {
    var i :| 0 <= i < |s| && s[i] == f;
    LookupFindsLast(s, i);
  }

  // ---------------------------------------------------------------------------
  // Modified is the change list of the retyped fields

  lemma {:induction false} ModifiedIsRetyped(current: Schema, proposed: Schema)
    ensures |Modified(current, proposed)| == |RetypedFields(current, proposed)|
    ensures forall k :: 0 <= k < |Modified(current, proposed)| ==>
      var f := RetypedFields(current, proposed)[k];
      Classify(current, f).Retyped? && Modified(current, proposed)[k] == Change(Classify(current, f).before, f)
  {
    if proposed != [] {
      ModifiedIsRetyped(current, proposed[..|proposed| - 1]);
    }
  }

  // ---------------------------------------------------------------------------
  // Properties of the diff

  /**
   * Each proposed field lands in exactly one group: added iff no current field has its
   * name; modified iff the last current field with its name has another type, and then
   * that field is the recorded `before`; unchanged otherwise (whatever `active` says).
   */
  lemma ProposedFieldClassified(current: Schema, proposed: Schema, p: Field)
    requires p in proposed
    ensures p in Added(current, proposed) <==> Lookup(current, p.name).None?
    ensures p in Unchanged(current, proposed) <==>
      Lookup(current, p.name).Some? && Lookup(current, p.name).value.fieldType == p.fieldType
    ensures forall b :: Change(b, p) in Modified(current, proposed) <==>
      Lookup(current, p.name) == Some(b) && b.fieldType != p.fieldType
  {
    var i :| 0 <= i < |proposed| && proposed[i] == p;
    var m, rf := Modified(current, proposed), RetypedFields(current, proposed);
    ModifiedIsRetyped(current, proposed);
    forall b
      ensures Change(b, p) in m <==> Lookup(current, p.name) == Some(b) && b.fieldType != p.fieldType
    {
      if Change(b, p) in m {
        var k :| 0 <= k < |m| && m[k] == Change(b, p);
        assert rf[k] == p;
      }
      if Lookup(current, p.name) == Some(b) && b.fieldType != p.fieldType {
        assert Classify(current, proposed[i]).Retyped?;
        var k :| 0 <= k < |rf| && rf[k] == p;
        assert m[k] == Change(b, p);
      }
    }
  }

  /** No proposed field is dropped or counted twice. */
  lemma {:induction false} PartitionCount(current: Schema, proposed: Schema)
    ensures |Added(current, proposed)| + |Modified(current, proposed)| + |Unchanged(current, proposed)| == |proposed|
  {
    if proposed != [] {
      PartitionCount(current, proposed[..|proposed| - 1]);
    }
  }

  /** `removed` is exactly the current fields whose name the proposal lacks. */
  lemma RemovedFields(current: Schema, proposed: Schema, c: Field)
    ensures c in Removed(current, proposed) <==> c in current && forall p :: p in proposed ==> p.name != c.name
  {
    if c in current && forall p :: p in proposed ==> p.name != c.name {
      var i :| 0 <= i < |current| && current[i] == c;
      if Lookup(proposed, c.name).Some? {
        assert Lookup(proposed, c.name).value in proposed;
      }
    }
  }

  /** Every group keeps the relative order of the list it was drawn from. */
  lemma DiffPreservesOrder(current: Schema, proposed: Schema)
    ensures IsSubsequence(Added(current, proposed), proposed)
    ensures IsSubsequence(RetypedFields(current, proposed), proposed)
    ensures IsSubsequence(Unchanged(current, proposed), proposed)
    ensures IsSubsequence(Removed(current, proposed), current)
  {
    FilterIsSubsequence(proposed, (p: Field) => Classify(current, p).Fresh?);
    FilterIsSubsequence(proposed, (p: Field) => Classify(current, p).Retyped?);
    FilterIsSubsequence(proposed, (p: Field) => Classify(current, p).Kept?);
    FilterIsSubsequence(current, (c: Field) => Lookup(proposed, c.name).None?);
  }

  /** What one side adds is what the reverse comparison removes. */
  lemma AddedIsReverseRemoved(a: Schema, b: Schema)
    ensures Added(a, b) == Removed(b, a)
  {
    FilterExtensional(b, (p: Field) => Classify(a, p).Fresh?, (c: Field) => Lookup(a, c.name).None?);
  }

  /** A schema with unique names compared with itself shows no change at all. */
  lemma SelfDiff(s: Schema)
    requires UniqueNames(s)
    ensures Diff(s, s) == DiffResult([], [], [], s)
  {
    forall f | f in s
      ensures Lookup(s, f.name) == Some(f)
    {
      LookupUnique(s, f);
    }
    FilterEmpty(s, (p: Field) => Classify(s, p).Fresh?);
    FilterEmpty(s, (p: Field) => Classify(s, p).Retyped?);
    FilterEmpty(s, (c: Field) => Lookup(s, c.name).None?);
    FilterKeepsAll(s, (p: Field) => Classify(s, p).Kept?);
    ModifiedIsRetyped(s, s);
  }

  /**
   * The card reports no structural change exactly when both sides use the same names and
   * every proposed field keeps the type of the current field it is matched with.
   */
  lemma NoStructuralChangesIff(current: Schema, proposed: Schema)
    ensures NoStructuralChanges(Diff(current, proposed)) <==>
      (forall p :: p in proposed ==>
         Lookup(current, p.name).Some? && Lookup(current, p.name).value.fieldType == p.fieldType) &&
      (forall c :: c in current ==> Lookup(proposed, c.name).Some?)
  {
    FilterEmpty(proposed, (p: Field) => Classify(current, p).Fresh?);
    FilterEmpty(proposed, (p: Field) => Classify(current, p).Retyped?);
    FilterEmpty(current, (c: Field) => Lookup(proposed, c.name).None?);
    ModifiedIsRetyped(current, proposed);
  }

  /** Appending a field under a name the current schema lacks only adds that field. */
  lemma AppendNewField(current: Schema, proposed: Schema, p: Field)
    requires forall i :: 0 <= i < |current| ==> current[i].name != p.name
    ensures Diff(current, proposed + [p]) ==
      Diff(current, proposed).(added := Added(current, proposed) + [p])
  {
    var q := proposed + [p];
    assert q[..|proposed|] == proposed && q[..|proposed| + 1] == q;
    ProposedStep(current, q, |proposed|);
    forall c | c in current
      ensures Lookup(q, c.name).None? == Lookup(proposed, c.name).None?
    {
      assert q[..|q| - 1] == proposed;
    }
    FilterExtensional(current, (c: Field) => Lookup(q, c.name).None?, (c: Field) => Lookup(proposed, c.name).None?);
  }

  /** A schema with unique names, extended by a field under a new name, differs from itself by that field alone. */
  lemma AppendToSelf(cur: Schema, p: Field)
    requires UniqueNames(cur)
    requires forall i :: 0 <= i < |cur| ==> cur[i].name != p.name
    ensures Diff(cur, cur + [p]) == DiffResult([p], [], [], cur)
  {
    SelfDiff(cur);
    AppendNewField(cur, cur, p);
  }

  /** Appending `score: FLOAT` to `[user_id, consent_status]` reports it as the only change. */
  lemma AppendedFieldExample()
    ensures var userId, consent := Field("user_id", "UUID", None), Field("consent_status", "BOOL", Some(true));
      var score := Field("score", "FLOAT", None);
      Diff([userId, consent], [userId, consent] + [score]) == DiffResult([score], [], [], [userId, consent])
  {
    var userId, consent := Field("user_id", "UUID", None), Field("consent_status", "BOOL", Some(true));
    AppendToSelf([userId, consent], Field("score", "FLOAT", None));
  }

  /** A field whose type changes is reported as modified, with its old and new form. */
  lemma RetypedFieldExample()
    ensures Diff([Field("a", "STRING", None)], [Field("a", "INT", None)]) ==
      DiffResult([], [], [Change(Field("a", "STRING", None), Field("a", "INT", None))], [])
  {
  }

  /**
   * With a repeated name, the last field wins: a schema compared with itself then reports
   * the earlier field as modified, which is why `SelfDiff` needs unique names.
   */
  lemma RepeatedNameExample()
    ensures var s := [Field("a", "INT", None), Field("a", "STRING", None)];
      Diff(s, s).modified == [Change(Field("a", "STRING", None), Field("a", "INT", None))]
  {
    var s := [Field("a", "INT", None), Field("a", "STRING", None)];
    assert s[..1] == [Field("a", "INT", None)];
    assert Lookup(s, "a") == Some(Field("a", "STRING", None));
    assert Classify(s, s[1]) == Kept;
    assert Modified(s, s[..1]) == [Change(Field("a", "STRING", None), Field("a", "INT", None))];
  }

  // ---------------------------------------------------------------------------
  // The computation

  /** `new Map(s.map(f => [f.name, f]))`: later entries overwrite earlier ones. */
  method IndexByName(s: Schema) returns (m: map<string, Field>)
    ensures forall name :: name in m <==> Lookup(s, name).Some?
    ensures forall name :: name in m ==> Lookup(s, name) == Some(m[name])
  {
    m := map[];
    var i := 0;
    while i < |s|
      invariant 0 <= i <= |s|
      invariant forall name :: name in m <==> Lookup(s[..i], name).Some?
      invariant forall name :: name in m ==> Lookup(s[..i], name) == Some(m[name])
    {
      assert s[..i + 1][..i] == s[..i];
      m := m[s[i].name := s[i]];
      i := i + 1;
    }
    assert s[..i] == s;
  }

  /** One more proposed field extends `added`, `modified` and `kept` by its verdict alone. */
  lemma ProposedStep(current: Schema, proposed: Schema, j: nat)
    requires j < |proposed|
    ensures var p := proposed[j];
      && Added(current, proposed[..j + 1]) ==
           Added(current, proposed[..j]) + (if Classify(current, p).Fresh? then [p] else [])
      && Unchanged(current, proposed[..j + 1]) ==
           Unchanged(current, proposed[..j]) + (if Classify(current, p).Kept? then [p] else [])
      && Modified(current, proposed[..j + 1]) ==
           Modified(current, proposed[..j]) +
             (if Classify(current, p).Retyped? then [Change(Classify(current, p).before, p)] else [])
  {
    FilterStep(proposed, (p: Field) => Classify(current, p).Fresh?, j);
    FilterStep(proposed, (p: Field) => Classify(current, p).Kept?, j);
    assert proposed[..j + 1][..j] == proposed[..j];
  }

  /** The loop over `proposed`, reading the current fields through their map. */
  method DiffProposed(current: Schema, proposed: Schema, currentMap: map<string, Field>)
    returns (added: Schema, modified: seq<Change>, kept: Schema)
    requires forall name :: name in currentMap <==> Lookup(current, name).Some?
    requires forall name :: name in currentMap ==> Lookup(current, name) == Some(currentMap[name])
    ensures added == Added(current, proposed)
    ensures modified == Modified(current, proposed)
    ensures kept == Unchanged(current, proposed)
  {
    added, modified, kept := [], [], [];
    var j := 0;
    while j < |proposed|
      invariant 0 <= j <= |proposed|
      invariant added == Added(current, proposed[..j])
      invariant modified == Modified(current, proposed[..j])
      invariant kept == Unchanged(current, proposed[..j])
    {
      var p := proposed[j];
      ProposedStep(current, proposed, j);
      if p.name !in currentMap {
        added := added + [p];
      } else if currentMap[p.name].fieldType != p.fieldType {
        modified := modified + [Change(currentMap[p.name], p)];
      } else {
        kept := kept + [p];
      }
      j := j + 1;
    }
    assert proposed[..j] == proposed;
  }

  /** The loop over `current`, reading the proposed names through their map. */
  method DiffCurrent(current: Schema, proposed: Schema, proposedMap: map<string, Field>)
    returns (removed: Schema)
    requires forall name :: name in proposedMap <==> Lookup(proposed, name).Some?
    ensures removed == Removed(current, proposed)
  {
    removed := [];
    var i := 0;
    while i < |current|
      invariant 0 <= i <= |current|
      invariant removed == Removed(current[..i], proposed)
    {
      FilterStep(current, (c: Field) => Lookup(proposed, c.name).None?, i);
      if current[i].name !in proposedMap {
        removed := removed + [current[i]];
      }
      i := i + 1;
    }
    assert current[..i] == current;
  }

  /** `calculateDiff`: index both schemas by name, then run the two loops. */
  method CalculateDiff(current: Schema, proposed: Schema) returns (d: DiffResult)
    ensures d == Diff(current, proposed)
  {
    var currentMap := IndexByName(current);
    var proposedMap := IndexByName(proposed);
    var added, modified, kept := DiffProposed(current, proposed, currentMap);
    var removed := DiffCurrent(current, proposed, proposedMap);
    d := DiffResult(added, removed, modified, kept);
  }
}
