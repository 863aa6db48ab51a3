/** The symptom checklist of the intake wizard (`toggleSymptom` in App.tsx):
    ticking a tag that is already selected removes it, ticking any other tag
    appends it. */
module SymptomForm {
  import opened Types

  /** `selected.filter(s => s !== sym)`. */
  function RemoveAll(selected: seq<string>, sym: string): (r: seq<string>)
    ensures forall x :: x in r <==> x in selected && x != sym
    ensures |r| <= |selected|
    ensures sym !in selected ==> r == selected
  {
    if selected == [] then []
    else
      var rest := RemoveAll(selected[1..], sym);
      assert forall x :: x in selected <==> x == selected[0] || x in selected[1..];
      assert sym !in selected ==> selected == [selected[0]] + selected[1..];
      if selected[0] != sym then [selected[0]] + rest else rest
  }

  /** The new selection list after ticking `sym`. */
  function Toggle(selected: seq<string>, sym: string): (r: seq<string>)
    ensures sym in r <==> sym !in selected
    ensures forall x :: x != sym ==> (x in r <==> x in selected)
    ensures sym !in selected ==> r == selected + [sym]
  {
    if sym in selected then RemoveAll(selected, sym) else selected + [sym]
  }

  /** `toggleSymptom`: only the selection changes. */
  function ToggleSymptom(symptoms: SymptomsData, sym: string): (r: SymptomsData)
    ensures r.selected == Toggle(symptoms.selected, sym)
    ensures r.duration == symptoms.duration && r.severity == symptoms.severity
    ensures r.notes == symptoms.notes
  {
    symptoms.(selected := Toggle(symptoms.selected, sym))
  }

  /** Removing keeps the survivors in order and without new duplicates. */
  lemma {:induction false} RemoveAllKeepsDistinct(selected: seq<string>, sym: string)
    requires Distinct(selected)
    ensures Distinct(RemoveAll(selected, sym))
    decreases |selected|
  {
    if selected != [] {
      var rest := RemoveAll(selected[1..], sym);
      RemoveAllKeepsDistinct(selected[1..], sym);
      if selected[0] != sym {
        assert selected[0] !in selected[1..];
        assert selected[0] !in rest;
        var r := [selected[0]] + rest;
        forall i, j | 0 <= i < j < |r| ensures r[i] != r[j] {
          if i == 0 { assert r[j] in rest; }
          else { assert r[i] == rest[i - 1] && r[j] == rest[j - 1]; }
        }
      }
    }
  }

  /** Ticking keeps a duplicate-free selection duplicate-free. */
  lemma ToggleKeepsDistinct(selected: seq<string>, sym: string)
    requires Distinct(selected)
    ensures Distinct(Toggle(selected, sym))
  {
    if sym in selected {
      RemoveAllKeepsDistinct(selected, sym);
    } else {
      var r := selected + [sym];
      forall i, j | 0 <= i < j < |r| ensures r[i] != r[j] {
        if j == |selected| { assert r[i] in selected; }
      }
    }
  }

  /** Ticking a tag twice restores the selection as a set; if the tag was
      not selected before, the list comes back exactly. A selected tag that
      is ticked twice moves to the end. */
  lemma ToggleTwice(selected: seq<string>, sym: string)
    requires Distinct(selected)
    ensures forall x :: x in Toggle(Toggle(selected, sym), sym) <==> x in selected
    ensures Distinct(Toggle(Toggle(selected, sym), sym))
    ensures sym !in selected ==> Toggle(Toggle(selected, sym), sym) == selected
    ensures sym in selected ==> Toggle(Toggle(selected, sym), sym) == RemoveAll(selected, sym) + [sym]
  {
    ToggleKeepsDistinct(selected, sym);
    ToggleKeepsDistinct(Toggle(selected, sym), sym);
    if sym !in selected {
      var once := selected + [sym];
      assert once[..|selected|] == selected;
      assert RemoveAll(once, sym) == selected by {
        RemoveAllAppend(selected, [sym], sym);
        assert RemoveAll([sym], sym) == [];
      }
    }
  }

  /** Removal distributes over concatenation. */
  lemma {:induction false} RemoveAllAppend(a: seq<string>, b: seq<string>, sym: string)
    ensures RemoveAll(a + b, sym) == RemoveAll(a, sym) + RemoveAll(b, sym)
    decreases |a|
  {
    if a == [] {
      assert a + b == b;
    } else {
      assert (a + b)[1..] == a[1..] + b;
      RemoveAllAppend(a[1..], b, sym);
    }
  }
}
