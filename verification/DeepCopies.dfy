/** Deep copies of custom resources on the heap: maps, specs, timestamps and slices are objects that can be shared. */
module DeepCopies {
  import opened Text
  import opened Cloud

  /** A Go map, which is a reference. */
  class StringMap {
    var entries: map<string, string>

    constructor ()
      ensures entries == map[]
    {
      entries := map[];
    }

    /** The copy loop: every key once, in no particular order. */
    method CopyFrom(source: map<string, string>)
      requires entries == map[]
      modifies this
      ensures entries == source
    {
      var rest := source.Keys;
      while rest != {}
        invariant rest <= source.Keys
        invariant entries.Keys == source.Keys - rest
        invariant forall k :: k in entries ==> entries[k] == source[k]
        decreases rest
      {
        var key :| key in rest;
        entries := entries[key := source[key]];
        rest := rest - {key};
      }
    }
  }

  /** metav1.Time behind a pointer. */
  class Timestamp {
    var instant: int

    constructor (instant: int)
      ensures this.instant == instant
    {
      this.instant := instant;
    }
  }

  /** The fields of a StackSpec that are copied by value. */
  datatype Scalars = Scalars(template: string, stackName: string, role: RoleProvider, timeout: int, region: string)

  datatype SpecValue = SpecValue(
    parameters: Option<map<string, string>>,
    tags: Option<map<string, string>>,
    scalars: Scalars)

  class StackSpecObject {
    var parameters: StringMap?
    var tags: StringMap?
    var scalars: Scalars

    ghost function Repr(): set<object?>
      reads this
    {
      {this, parameters, tags} - {null}
    }

    ghost function Value(): SpecValue
      reads Repr()
    {
      SpecValue(
        if parameters == null then None else Some(parameters.entries),
        if tags == null then None else Some(tags.entries),
        scalars)
    }

    constructor ()
      ensures parameters == null && tags == null
    {
      parameters, tags := null, null;
      scalars := Scalars("", "", RoleProvider("", "", "", "", "", "", ""), 0, "");
    }

    /** First everything is copied shallowly, then each map that is there is replaced by a new one. A receiver copied
        into itself would read its maps after they were replaced, so callers pass another object. */
    method DeepCopyInto(out: StackSpecObject)
      requires out != this
      modifies out
      ensures out.Value() == old(Value())
      ensures fresh({out.parameters, out.tags} - {null})
      ensures out.parameters != null ==> out.parameters != out.tags
    {
      out.parameters, out.tags, out.scalars := parameters, tags, scalars;
      if parameters != null {
        out.parameters := new StringMap();
        out.parameters.CopyFrom(parameters.entries);
      }
      if tags != null {
        out.tags := new StringMap();
        out.tags.CopyFrom(tags.entries);
      }
    }

    method DeepCopy() returns (out: StackSpecObject)
      ensures fresh({out, out.parameters, out.tags} - {null}) && out.Value() == old(Value())
      ensures out.parameters != null ==> out.parameters != out.tags
    {
      out := new StackSpecObject();
      DeepCopyInto(out);
    }
  }

  /** The status fields that are copied by value, and the metadata, whose own deep copy belongs to Kubernetes. */
  datatype Header = Header(metadata: string, status: Status)

  datatype DeploymentValue = DeploymentValue(header: Header, spec: Option<SpecValue>, startedAt: Option<int>)

  /** A CloudResourceDeployment; its spec and its status are parts of it, not objects of their own. */
  class Deployment {
    var header: Header
    var cloudformation: StackSpecObject?
    var startedAt: Timestamp?

    ghost function Repr(): (r: set<object?>)
      reads this, cloudformation
      ensures this in r
    {
      {this, cloudformation, startedAt,
       if cloudformation == null then null else cloudformation.parameters,
       if cloudformation == null then null else cloudformation.tags} - {null}
    }

    ghost function Value(): DeploymentValue
      reads this, cloudformation, Repr()
    {
      DeploymentValue(
        header,
        if cloudformation == null then None else Some(cloudformation.Value()),
        if startedAt == null then None else Some(startedAt.instant))
    }

    /** Parameters and tags are separate maps. */
    predicate Unshared()
      reads this, cloudformation
    {
      cloudformation != null && cloudformation.parameters != null ==> cloudformation.parameters != cloudformation.tags
    }

    constructor ()
      ensures cloudformation == null && startedAt == null && Repr() == {this}
    {
      header := Header("", BLANK_STATUS);
      cloudformation, startedAt := null, null;
    }

    /** DeepCopyInto of the spec part. */
    method SpecDeepCopyInto(out: Deployment)
      requires out != this
      modifies out`cloudformation
      ensures (out.cloudformation == null) == (old(cloudformation) == null)
      ensures out.cloudformation != null ==>
        && fresh({out.cloudformation, out.cloudformation.parameters, out.cloudformation.tags} - {null})
        && out.cloudformation.Value() == old(cloudformation.Value())
      ensures out.Unshared()
    {
      out.cloudformation := cloudformation;
      if cloudformation != null {
        out.cloudformation := cloudformation.DeepCopy();
      }
    }

    /** DeepCopyInto of the status part. */
    method StatusDeepCopyInto(out: Deployment)
      requires out != this
      modifies out`header, out`startedAt
      ensures out.header == old(out.header).(status := old(header.status))
      ensures (out.startedAt == null) == (old(startedAt) == null)
      ensures out.startedAt != null ==> fresh(out.startedAt) && out.startedAt.instant == old(startedAt.instant)
    {
      out.header := out.header.(status := header.status);
      out.startedAt := startedAt;
      if startedAt != null {
        out.startedAt := new Timestamp(startedAt.instant);
      }
    }

    method DeepCopyInto(out: Deployment)
      requires out != this
      modifies out
      ensures out.Value() == old(Value()) && out.Unshared()
      ensures fresh(out.Repr() - {out})
    {
      out.header, out.cloudformation, out.startedAt := header, cloudformation, startedAt;
      SpecDeepCopyInto(out);
      StatusDeepCopyInto(out);
    }

    method DeepCopy() returns (out: Deployment)
      ensures fresh(out.Repr()) && out.Value() == old(Value()) && out.Unshared()
    {
      out := new Deployment();
      DeepCopyInto(out);
    }

    /** What Reconcile does to the parameter map of the resource it holds. */
    method WriteParameter(key: string, value: string)
      requires cloudformation != null && cloudformation.parameters != null
      modifies cloudformation.parameters
      ensures cloudformation.parameters.entries == old(cloudformation.parameters.entries)[key := value]
    {
      cloudformation.parameters.entries := cloudformation.parameters.entries[key := value];
    }
  }

  /** The array behind a slice of resources; its elements lie in it side by side. */
  class Slice {
    var elements: seq<Deployment>

    /** make: elements of their own, with nothing in them. */
    constructor (length: nat)
      ensures |elements| == length
      ensures forall i :: 0 <= i < length ==> fresh(elements[i]) && elements[i].Repr() == {elements[i]}
      ensures Apart(elements)
    {
      elements := [];
      new;
      for i := 0 to length
        invariant |elements| == i
        invariant forall j :: 0 <= j < i ==> fresh(elements[j]) && elements[j].Repr() == {elements[j]}
        invariant forall j, k :: 0 <= j < k < i ==> elements[j] != elements[k]
      {
        var d := new Deployment();
        assert d !in elements;
        elements := elements + [d];
      }
    }
  }

  ghost predicate Apart(items: seq<Deployment>)
    reads items, set d | d in items :: d.cloudformation
  {
    forall j, k :: 0 <= j < k < |items| ==> items[j].Repr() !! items[k].Repr()
  }

  /** One element of the loop; the other elements of the target stay as they are. */
  method CopyItem(source: seq<Deployment>, target: seq<Deployment>, i: nat)
    requires i < |target| == |source| && Apart(target)
    requires forall j :: 0 <= j < |source| ==> source[j] !in target
    modifies target[i]
    ensures forall j :: 0 <= j < |source| ==> source[j].Value() == old(source[j].Value())
    ensures target[i].Value() == old(source[i].Value()) && target[i].Unshared() && fresh(target[i].Repr() - {target[i]})
    ensures forall j :: 0 <= j < |target| && j != i ==>
      target[j].Repr() == old(target[j].Repr()) && target[j].Value() == old(target[j].Value())
      && target[j].Unshared() == old(target[j].Unshared())
    ensures Apart(target)
  {
    assert forall j :: 0 <= j < |target| && j != i ==> target[i] !in target[j].Repr() by {
      forall j | 0 <= j < |target| && j != i ensures target[i] !in target[j].Repr() {
        assert target[i] in target[i].Repr();
        if j < i { assert target[j].Repr() !! target[i].Repr(); } else { assert target[i].Repr() !! target[j].Repr(); }
      }
    }
    assert forall j :: 0 <= j < |source| ==> source[j] != target[i];
    source[i].DeepCopyInto(target[i]);
    forall j | 0 <= j < |target| && j != i
      ensures target[j].Repr() == old(target[j].Repr()) && target[j].Value() == old(target[j].Value())
      ensures target[j].Unshared() == old(target[j].Unshared())
    {
      assert target[j] != target[i];
    }
  }

  /** The element loop of DeepCopyInto on lists: targets without contents of their own take the copies. */
  method CopyItems(source: seq<Deployment>, target: seq<Deployment>)
    requires |source| == |target| && Apart(target)
    requires forall j :: 0 <= j < |target| ==> target[j].Repr() == {target[j]}
    requires forall j :: 0 <= j < |source| ==> source[j] !in target
    modifies target
    ensures forall j :: 0 <= j < |target| ==>
      && fresh(target[j].Repr() - {target[j]}) && target[j].Unshared() && target[j].Value() == old(source[j].Value())
    ensures Apart(target)
  {
    for i := 0 to |source|
      invariant forall j :: 0 <= j < |source| ==> source[j].Value() == old(source[j].Value())
      invariant forall j :: 0 <= j < i ==> target[j].Unshared() && target[j].Value() == old(source[j].Value())
      invariant forall j :: 0 <= j < |source| ==> fresh(target[j].Repr() - {target[j]})
      invariant Apart(target)
    {
      CopyItem(source, target, i);
    }
  }

  /** make, and then the element loop. */
  method CopySlice(slice: Slice) returns (copy: Slice)
    ensures fresh(copy) && |copy.elements| == |slice.elements|
    ensures forall i :: 0 <= i < |copy.elements| ==>
      && fresh(copy.elements[i]) && fresh(copy.elements[i].Repr() - {copy.elements[i]}) && copy.elements[i].Unshared()
      && copy.elements[i].Value() == old(slice.elements[i].Value())
    ensures Apart(copy.elements)
  {
    var source := slice.elements;
    copy := new Slice(|source|);
    CopyItems(source, copy.elements);
  }

  class DeploymentList {
    var metadata: string
    var items: Slice?

    constructor ()
      ensures metadata == "" && items == null
    {
      metadata, items := "", null;
    }

    /** The copies are equal one by one, consist of new objects only, and share nothing with each other, whatever the
        originals shared. */
    method DeepCopyInto(out: DeploymentList)
      requires out != this
      modifies out
      ensures out.metadata == old(metadata) && (out.items == null) == (old(items) == null)
      ensures out.items != null ==>
        && fresh(out.items) && |out.items.elements| == |old(items.elements)|
        && (forall i :: 0 <= i < |out.items.elements| ==>
              && fresh(out.items.elements[i]) && fresh(out.items.elements[i].Repr() - {out.items.elements[i]})
              && out.items.elements[i].Unshared()
              && out.items.elements[i].Value() == old(items.elements[i].Value()))
        && Apart(out.items.elements)
    {
      out.metadata, out.items := metadata, items;
      if items != null {
        out.items := CopySlice(items);
      }
    }

    method DeepCopy() returns (out: DeploymentList)
      ensures fresh(out) && out.metadata == old(metadata) && (out.items == null) == (old(items) == null)
      ensures out.items != null ==>
        && fresh(out.items) && |out.items.elements| == |old(items.elements)|
        && (forall i :: 0 <= i < |out.items.elements| ==>
              && fresh(out.items.elements[i]) && fresh(out.items.elements[i].Repr() - {out.items.elements[i]})
              && out.items.elements[i].Unshared()
              && out.items.elements[i].Value() == old(items.elements[i].Value()))
        && Apart(out.items.elements)
    {
      out := new DeploymentList();
      DeepCopyInto(out);
    }
  }

  function WithParameter(v: DeploymentValue, key: string, value: string): DeploymentValue
    requires v.spec.Some? && v.spec.value.parameters.Some?
  {
    v.(spec := Some(v.spec.value.(parameters := Some(v.spec.value.parameters.value[key := value]))))
  }

  /** Copying a list and writing a parameter of one copied resource, as a reconcile does with what the cache hands
      out: that copy has the new value, the other copies and all originals stay as they were. */
  method CopyThenWrite(list: DeploymentList, i: nat, key: string, value: string) returns (copy: DeploymentList)
    requires list.items != null && i < |list.items.elements|
    requires list.items.elements[i].cloudformation != null && list.items.elements[i].cloudformation.parameters != null
    ensures list.items != null && list.items.elements == old(list.items.elements)
    ensures forall j :: 0 <= j < |list.items.elements| ==>
      list.items.elements[j].Value() == old(list.items.elements[j].Value())
    ensures copy.items != null && |copy.items.elements| == |list.items.elements|
    ensures forall j :: 0 <= j < |copy.items.elements| && j != i ==>
      copy.items.elements[j].Value() == old(list.items.elements[j].Value())
    ensures copy.items.elements[i].Value() == WithParameter(old(list.items.elements[i].Value()), key, value)
  {
    copy := list.DeepCopy();
    assert copy.items.elements[i].cloudformation.parameters in copy.items.elements[i].Repr();
    WriteInto(copy.items.elements, i, key, value);
  }

  method WriteInto(target: seq<Deployment>, i: nat, key: string, value: string)
    requires i < |target| && Apart(target)
    requires target[i].cloudformation != null && target[i].cloudformation.parameters != null && target[i].Unshared()
    modifies target[i].cloudformation.parameters
    ensures target[i].Value() == WithParameter(old(target[i].Value()), key, value)
    ensures forall j :: 0 <= j < |target| && j != i ==> target[j].Value() == old(target[j].Value())
  {
    ghost var written := target[i].cloudformation.parameters;
    assert written in target[i].Repr();
    assert forall j :: 0 <= j < |target| && j != i ==> written !in target[j].Repr() by {
      forall j | 0 <= j < |target| && j != i ensures written !in target[j].Repr() {
        if j < i { assert target[j].Repr() !! target[i].Repr(); } else { assert target[i].Repr() !! target[j].Repr(); }
      }
    }
    target[i].WriteParameter(key, value);
    forall j | 0 <= j < |target| && j != i ensures target[j].Value() == old(target[j].Value()) {
      hide Deployment.Repr;
    }
  }
}
