/** The selection state of the calculator (src/App.jsx, the state hooks of
    App): one id per single-choice catalog and a list of extra-service ids. */
module SelectionState {
  import opened Catalog
  import opened Pricing
  import opened PricingProperties

  /** No id occurs twice in `s`. */
  predicate NoDuplicates(s: seq<string>) {
    forall i, j :: 0 <= i < j < |s| ==> s[i] != s[j]
  }

  /** `s` without any occurrence of `id`, the other ids in their order
      (the `filter` of toggleExtra). */
  function Remove(s: seq<string>, id: string): (kept: seq<string>)
    ensures |kept| <= |s|
    ensures id !in kept
  {
    if s == [] then [] else (if s[0] == id then [] else [s[0]]) + Remove(s[1..], id)
  }

  /** The new extras list of toggleExtra: drop `id` when it is selected,
      otherwise append it. */
  function Toggle(extras: seq<string>, id: string): (toggled: seq<string>)
    ensures id in toggled <==> id !in extras
    ensures |toggled| <= |extras| + 1
  {
    if id in extras then Remove(extras, id) else extras + [id]
  }

  /** Removing keeps every id other than `id` as often as before. */
  lemma {:induction false} RemoveCounts(s: seq<string>, id: string)
    ensures multiset(Remove(s, id)) == multiset(s)[id := 0]
  {
    if s != [] {
      RemoveCounts(s[1..], id);
      assert s == [s[0]] + s[1..];
      assert multiset(s) == multiset{s[0]} + multiset(s[1..]);
      assert multiset(Remove(s, id)) == multiset(if s[0] == id then [] else [s[0]]) + multiset(Remove(s[1..], id));
    }
  }

  /** Removing keeps exactly the ids other than `id`, each as often as before. */
  lemma RemoveContents(s: seq<string>, id: string)
    ensures multiset(Remove(s, id)) == multiset(s)[id := 0]
    ensures forall x :: x in Remove(s, id) <==> x in s && x != id
  {
    RemoveCounts(s, id);
    forall x ensures x in Remove(s, id) <==> x in s && x != id {
      assert x in Remove(s, id) <==> x in multiset(Remove(s, id));
      assert x in s <==> x in multiset(s);
    }
  }

  /** Removing distributes over concatenation, so the kept ids stay in order. */
  lemma {:induction false} RemoveConcat(a: seq<string>, b: seq<string>, id: string)
    ensures Remove(a + b, id) == Remove(a, id) + Remove(b, id)
  {
    if a == [] {
      assert a + b == b;
    } else {
      assert (a + b)[1..] == a[1..] + b;
      RemoveConcat(a[1..], b, id);
    }
  }

  /** Removing an id that does not occur changes nothing. */
  lemma {:induction false} RemoveAbsent(s: seq<string>, id: string)
    requires id !in s
    ensures Remove(s, id) == s
  {
    if s != [] {
      RemoveAbsent(s[1..], id);
    }
  }

  /** Removing never introduces a duplicate. */
  lemma {:induction false} RemoveNoDuplicates(s: seq<string>, id: string)
    requires NoDuplicates(s)
    ensures NoDuplicates(Remove(s, id))
  {
    if s != [] {
      RemoveNoDuplicates(s[1..], id);
      RemoveContents(s[1..], id);
      assert s[0] !in s[1..];
    }
  }

  /** An absent id is appended at the end; a present id disappears and every
      other id keeps its number of occurrences. */
  lemma ToggleEffect(extras: seq<string>, id: string)
    ensures id !in extras ==> Toggle(extras, id) == extras + [id]
    ensures id in extras ==> id !in Toggle(extras, id) &&
                             multiset(Toggle(extras, id)) == multiset(extras)[id := 0]
  {
    RemoveContents(extras, id);
  }

  /** As a set, toggling flips the membership of `id` and of nothing else. */
  lemma ToggleMembership(extras: seq<string>, id: string, x: string)
    ensures x in Toggle(extras, id) <==> (if x == id then id !in extras else x in extras)
  {
    RemoveContents(extras, id);
  }

  /** Toggling keeps a duplicate-free list duplicate-free. */
  lemma ToggleNoDuplicates(extras: seq<string>, id: string)
    requires NoDuplicates(extras)
    ensures NoDuplicates(Toggle(extras, id))
  {
    if id in extras {
      RemoveNoDuplicates(extras, id);
    }
  }

  /** Toggling an absent id twice restores the original list exactly. */
  lemma ToggleTwiceRestores(extras: seq<string>, id: string)
    requires id !in extras
    ensures Toggle(Toggle(extras, id), id) == extras
  {
    RemoveConcat(extras, [id], id);
    RemoveAbsent(extras, id);
    assert Remove([id], id) == [];
  }

  /** Toggling a present id twice moves it to the end of the list. */
  lemma ToggleTwiceMovesToEnd(extras: seq<string>, id: string)
    requires id in extras
    ensures Toggle(Toggle(extras, id), id) == Remove(extras, id) + [id]
  {
    RemoveContents(extras, id);
  }

  /** The mutable selection, one field per selection hook of App. */
  class Selection {
    var projectType: string
    var complexity: string
    var urgency: string
    var extras: seq<string>

    /** Every id resolves in its catalog and no extra is listed twice. */
    predicate Valid(cat: Catalogs)
      reads this
      ensures Valid(cat) ==> CalculatePrice(cat, projectType, complexity, urgency, extras).Ok?
    {
      HasId(cat.projects, ProjectId, projectType) &&
      HasId(cat.complexities, ComplexityId, complexity) &&
      HasId(cat.urgencies, UrgencyId, urgency) &&
      AllKnown(cat.extras, extras) && NoDuplicates(extras)
    }

    /** The initial state: the first entry of each single-choice catalog and no extras. */
    constructor (cat: Catalogs)
      requires |cat.projects| > 0 && |cat.complexities| > 0 && |cat.urgencies| > 0
      ensures projectType == cat.projects[0].id
      ensures complexity == cat.complexities[0].id
      ensures urgency == cat.urgencies[0].id
      ensures extras == []
      ensures Valid(cat)
    {
      projectType := cat.projects[0].id;
      complexity := cat.complexities[0].id;
      urgency := cat.urgencies[0].id;
      extras := [];
      assert ProjectId(cat.projects[0]) == cat.projects[0].id;
      assert ComplexityId(cat.complexities[0]) == cat.complexities[0].id;
      assert UrgencyId(cat.urgencies[0]) == cat.urgencies[0].id;
    }

    /** setProjectType: replace the project id, nothing else; a valid selection
        stays valid when the id is one of the catalog's. */
    method SetProjectType(id: string, ghost cat: Catalogs)
      modifies this
      ensures projectType == id
      ensures complexity == old(complexity) && urgency == old(urgency) && extras == old(extras)
      ensures old(Valid(cat)) && HasId(cat.projects, ProjectId, id) ==> Valid(cat)
    {
      projectType := id;
    }

    /** setComplexity: replace the complexity id, nothing else; a valid selection
        stays valid when the id is one of the catalog's. */
    method SetComplexity(id: string, ghost cat: Catalogs)
      modifies this
      ensures complexity == id
      ensures projectType == old(projectType) && urgency == old(urgency) && extras == old(extras)
      ensures old(Valid(cat)) && HasId(cat.complexities, ComplexityId, id) ==> Valid(cat)
    {
      complexity := id;
    }

    /** setUrgency: replace the urgency id, nothing else; a valid selection
        stays valid when the id is one of the catalog's. */
    method SetUrgency(id: string, ghost cat: Catalogs)
      modifies this
      ensures urgency == id
      ensures projectType == old(projectType) && complexity == old(complexity) && extras == old(extras)
      ensures old(Valid(cat)) && HasId(cat.urgencies, UrgencyId, id) ==> Valid(cat)
    {
      urgency := id;
    }

    /** toggleExtra: add or remove one extra-service id; a valid selection
        stays valid when the id is one of the catalog's. */
    method ToggleExtra(serviceId: string, ghost cat: Catalogs)
      modifies this
      ensures extras == Toggle(old(extras), serviceId)
      ensures projectType == old(projectType) && complexity == old(complexity) && urgency == old(urgency)
      ensures old(Valid(cat)) && HasId(cat.extras, ExtraId, serviceId) ==> Valid(cat)
    {
      ghost var before := extras;
      var isAlreadySelected := serviceId in extras;
      if isAlreadySelected {
        extras := Remove(extras, serviceId);
      } else {
        extras := extras + [serviceId];
      }
      if NoDuplicates(before) {
        ToggleNoDuplicates(before, serviceId);
      }
      forall i | 0 <= i < |extras| ensures extras[i] in before || extras[i] == serviceId {
        ToggleMembership(before, serviceId, extras[i]);
      }
    }

    /** The price shown for the current selection (totalPrice). */
    function TotalPrice(cat: Catalogs): (r: Result<int>)
      reads this
      ensures Valid(cat) ==> r.Ok?
      ensures r.Err? ==> r.error.id in [projectType, complexity, urgency] + extras
    {
      CalculatePrice(cat, projectType, complexity, urgency, extras)
    }
  }

  /** A fresh selection over the shipped catalogs prices to 5000. */
  method DefaultQuote() returns (price: Result<int>)
    ensures price == Ok(5000)
  {
    ShippedDefaults();
    var selection := new Selection(Shipped);
    price := selection.TotalPrice(Shipped);
    ShippedWorkedValues();
  }
}
