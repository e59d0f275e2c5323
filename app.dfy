/** The in-memory material list that the web application's routes share,
    the status labelling done by the inventory page and the append done by
    the add-material form. */
module App {
  import opened Wrappers

  /** The two labels the inventory page writes into a record. */
  datatype Status = Ok | Low

  /** One material record. The seed records carry no status until the
      inventory page has labelled them, hence `Option<Status>`. */
  datatype Material = Material(
    id: nat,
    name: string,
    quantity: real,
    unit: string,
    reorderPoint: real,
    supplier: string,
    status: Option<Status>)

  /** The label the inventory page gives a record: OK only while stock is
      strictly above the reorder point. */
  function StatusFor(m: Material): Status {
    if m.quantity > m.reorderPoint then Ok else Low
  }

  /** One record as the inventory page leaves it. */
  function Classify(m: Material): Material {
    m.(status := Some(StatusFor(m)))
  }

  /** The whole list as the inventory page leaves it. */
  function Classified(ms: seq<Material>): (r: seq<Material>)
    ensures |r| == |ms|
  {
    if ms == [] then [] else [Classify(ms[0])] + Classified(ms[1..])
  }

  /** Record `i` of the list has id `i + 1`. */
  ghost predicate IdsArePositions(ms: seq<Material>) {
    forall i :: 0 <= i < |ms| ==> ms[i].id == i + 1
  }

  /** The two records the application starts with. */
  function Seed(): (ms: seq<Material>)
    ensures IdsArePositions(ms)
    ensures forall m :: m in ms ==> m.status == None
  {
    [ Material(1, "Concrete Hollow Blocks (4\")", 585.0, "pcs", 500.0, "123 Construction Corp", None),
      Material(2, "Concrete Hollow Blocks (5\")", 5299.0, "pcs", 500.0, "123 Construction Corp", None) ]
  }

  /** The record the add-material form appends. */
  function NewMaterial(id: nat, name: string, quantity: real, unit: string): Material {
    Material(id, name, quantity, unit, 0.0, "Default Supplier", Some(Ok))
  }

  lemma {:induction false} ClassifiedAt(ms: seq<Material>, i: nat)
    requires i < |ms|
    ensures Classified(ms)[i] == Classify(ms[i])
  {
    if i > 0 {
      ClassifiedAt(ms[1..], i - 1);
    }
  }

  /** A list whose every record is the labelled counterpart of the
      matching record of `ms` is the labelled list. */
  lemma ClassifiedPointwise(ms: seq<Material>, r: seq<Material>)
    requires |r| == |ms|
    requires forall j :: 0 <= j < |ms| ==> r[j] == Classify(ms[j])
    ensures r == Classified(ms)
  {
    forall j | 0 <= j < |ms| ensures r[j] == Classified(ms)[j] {
      ClassifiedAt(ms, j);
    }
  }

  /** After labelling, a record is OK exactly when its quantity exceeds its
      reorder point, and LOW otherwise. */
  lemma {:induction false} StatusRule(ms: seq<Material>)
    ensures forall i :: 0 <= i < |ms| ==>
      Classified(ms)[i].status == Some(if ms[i].quantity > ms[i].reorderPoint then Ok else Low)
  {
    forall i | 0 <= i < |ms|
      ensures Classified(ms)[i].status == Some(if ms[i].quantity > ms[i].reorderPoint then Ok else Low)
    {
      ClassifiedAt(ms, i);
    }
  }

  /** Labelling touches the status field only: the length, the order and
      every other field of every record stay as they were. */
  lemma {:induction false} OnlyStatusChanges(ms: seq<Material>)
    ensures |Classified(ms)| == |ms|
    ensures forall i :: 0 <= i < |ms| ==> Classified(ms)[i] == ms[i].(status := Classified(ms)[i].status)
  {
    forall i | 0 <= i < |ms|
      ensures Classified(ms)[i] == ms[i].(status := Classified(ms)[i].status)
    {
      ClassifiedAt(ms, i);
    }
  }

  /** Labelling twice is labelling once. */
  lemma {:induction false} ClassifiedIdempotent(ms: seq<Material>)
    ensures Classified(Classified(ms)) == Classified(ms)
  {
    if ms != [] {
      var r := Classified(ms);
      assert r[1..] == Classified(ms[1..]);
      ClassifiedIdempotent(ms[1..]);
    }
  }

  /** Labelling keeps every id in its place. */
  lemma ClassifiedKeepsIds(ms: seq<Material>)
    requires IdsArePositions(ms)
    ensures IdsArePositions(Classified(ms))
  {
    OnlyStatusChanges(ms);
  }

  /** While ids are positions they are pairwise distinct. */
  lemma IdsAreDistinct(ms: seq<Material>)
    requires IdsArePositions(ms)
    ensures forall i, j :: 0 <= i < j < |ms| ==> ms[i].id != ms[j].id
  {
  }

  /** Appending the form's record keeps ids equal to positions, and its id
      is new to the list. */
  lemma AppendKeepsIds(ms: seq<Material>, name: string, quantity: real, unit: string)
    requires IdsArePositions(ms)
    ensures IdsArePositions(ms + [NewMaterial(|ms| + 1, name, quantity, unit)])
    ensures forall m :: m in ms ==> m.id != |ms| + 1
  {
  }

  /** The status written at append time is the one the inventory page would
      compute exactly when the quantity is positive: a record added with
      quantity 0 (or less) is stored as OK although the inventory page
      relabels it LOW. */
  lemma AddedStatusAgreesIffStocked(id: nat, name: string, quantity: real, unit: string)
    ensures NewMaterial(id, name, quantity, unit).status == Some(Ok)
    ensures Classify(NewMaterial(id, name, quantity, unit)) == NewMaterial(id, name, quantity, unit)
            <==> quantity > 0.0
  {
    if quantity <= 0.0 {
      assert Classify(NewMaterial(id, name, quantity, unit)).status == Some(Low);
    }
  }

  /** The material list captured by the routes. */
  class MaterialStore {
    var materials: seq<Material>

    ghost predicate Valid()
      reads this
    {
      IdsArePositions(materials)
    }

    constructor ()
      ensures Valid()
      ensures materials == Seed()
    {
      materials := Seed();
    }

    /** The inventory page: labels every record in place, in list order. */
    method Inventory()
      requires Valid()
      modifies this
      ensures Valid()
      ensures materials == Classified(old(materials))
    {
      ghost var before := materials;
      var i := 0;
      while i < |materials|
        invariant 0 <= i <= |materials| == |before|
        invariant forall j :: 0 <= j < i ==> materials[j] == Classify(before[j])
        invariant forall j :: i <= j < |materials| ==> materials[j] == before[j]
      {
        materials := materials[i := Classify(materials[i])];
        i := i + 1;
      }
      ClassifiedPointwise(before, materials);
      ClassifiedKeepsIds(before);
    }

    /** The add-material form: appends one record whose id is the new
        length of the list. */
    method AddMaterial(name: string, quantity: real, unit: string)
      requires Valid()
      modifies this
      ensures Valid()
      ensures materials == old(materials) + [NewMaterial(|old(materials)| + 1, name, quantity, unit)]
    {
      AppendKeepsIds(materials, name, quantity, unit);
      materials := materials + [NewMaterial(|materials| + 1, name, quantity, unit)];
    }
  }
}
