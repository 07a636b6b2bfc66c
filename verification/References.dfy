/** Parameter values that refer to an output of another stack: their text, their lookup, and the loop
    that resolves all of them. */
module References {
  import opened Text
  import opened Cloud

  const OUTPUT_MARKER := "!stack_output "
  const EXTERNAL_MARKER := "!stack_output_external "
  const SEPARATOR := "::"

  /** What the parser makes of a parameter value. Malformed stands for an index out of range. */
  datatype Reference = Plain | Reference(stack: string, output: string) | Malformed

  /** The text behind the marker, cut at every separator; only the first two pieces are used. */
  function ParseDetails(details: string): Reference {
    var pieces := Split(details, SEPARATOR);
    if |pieces| < 2 then Malformed else Reference(pieces[0], pieces[1])
  }

  function ParseReference(value: string): Reference {
    if !Contains(value, SEPARATOR) then Plain
    else if HasPrefix(value, OUTPUT_MARKER) then
      assert OccursAt(value, OUTPUT_MARKER, 0);
      ParseDetails(Split(value, OUTPUT_MARKER)[1])
    else if HasPrefix(value, EXTERNAL_MARKER) then
      assert OccursAt(value, EXTERNAL_MARKER, 0);
      ParseDetails(Split(value, EXTERNAL_MARKER)[1])
    else Plain
  }

  function PrintReference(marker: string, stack: string, output: string): string {
    marker + stack + SEPARATOR + output
  }

  /** The names a printed reference can carry. */
  ghost predicate Printable(marker: string, stack: string, output: string)
    requires marker != ""
  {
    && !Occurs(stack, SEPARATOR) && !Occurs(output, SEPARATOR)
    && !Occurs(stack, marker) && !Occurs(output, marker)
    && (stack == "" || stack[|stack| - 1] != ':')
  }

  /** Printing and parsing is the identity on exactly the printable names; there the parser also stays in range. */
  lemma ReferenceRoundTrip(marker: string, stack: string, output: string)
    requires marker in {OUTPUT_MARKER, EXTERNAL_MARKER}
    ensures ParseReference(PrintReference(marker, stack, output)) == Reference(stack, output)
       <==> Printable(marker, stack, output)
  {
    var rest := stack + SEPARATOR + output;
    var details := Before(rest, marker);
    PrintedDetails(marker, stack, output);
    if Printable(marker, stack, output) {
      MarkerStaysInside(marker, stack, output);
      SplitNone(rest, marker);
      DetailsOfPair(stack, output);
    }
    if ParseDetails(details) == Reference(stack, output) {
      PairOfDetails(details, stack, output);
      assert details == rest;
      BeforeIsClean(rest, marker);
      ClearOfMarker(marker, stack, output);
    }
  }

  /** Parsing a printed reference looks only at the text between the first marker and the next one. */
  lemma PrintedDetails(marker: string, stack: string, output: string)
    requires marker in {OUTPUT_MARKER, EXTERNAL_MARKER}
    ensures ParseReference(PrintReference(marker, stack, output))
         == ParseDetails(Before(stack + SEPARATOR + output, marker))
  {
    var value := PrintReference(marker, stack, output);
    var rest := stack + SEPARATOR + output;
    assert value == marker + rest;
    assert OccursAt(value, SEPARATOR, |marker| + |stack|);
    assert OccursAt(value, marker, 0);
    SplitAt(value, marker, 0);
    assert value[|marker|..] == rest;
    assert marker == EXTERNAL_MARKER ==> value[13] == '_' && !HasPrefix(value, OUTPUT_MARKER);
  }

  /** A marker has no colon, so it cannot lie across the separator. */
  lemma MarkerStaysInside(marker: string, stack: string, output: string)
    requires marker != "" && ':' !in marker
    requires !Occurs(stack, marker) && !Occurs(output, marker)
    ensures !Occurs(stack + SEPARATOR + output, marker)
  {
    var rest := stack + SEPARATOR + output;
    var n := |stack|;
    forall i | OccursAt(rest, marker, i) ensures false {
      if i + |marker| <= n {
        assert rest[0..n] == stack;
        OccursInSlice(rest, 0, n, marker, i);
      } else if n + 2 <= i {
        assert rest[n + 2..|rest|] == output;
        OccursInSlice(rest, n + 2, |rest|, marker, i - n - 2);
      } else {
        CharAt(rest, marker, i, if i <= n then n else n + 1);
      }
    }
  }

  lemma ColonsAt(s: string, i: nat)
    requires i + 1 < |s| && s[i] == ':' && s[i + 1] == ':'
    ensures OccursAt(s, SEPARATOR, i)
  {
    assert s[i..i + 2] == [s[i], s[i + 1]];
  }

  lemma ClearOfMarker(marker: string, stack: string, output: string)
    requires marker != "" && !Occurs(stack + SEPARATOR + output, marker)
    ensures !Occurs(stack, marker) && !Occurs(output, marker)
  {
    var rest := stack + SEPARATOR + output;
    var n := |stack|;
    forall i | OccursAt(stack, marker, i) ensures false {
      assert rest[0..n] == stack;
      OccursInSlice(rest, 0, n, marker, i);
    }
    forall i | OccursAt(output, marker, i) ensures false {
      assert rest[n + 2..|rest|] == output;
      OccursInSlice(rest, n + 2, |rest|, marker, i);
    }
  }

  /** With clean names the first separator is the printed one, and the output is the whole second piece. */
  lemma DetailsOfPair(stack: string, output: string)
    requires !Occurs(stack, SEPARATOR) && !Occurs(output, SEPARATOR)
    requires stack == "" || stack[|stack| - 1] != ':'
    ensures ParseDetails(stack + SEPARATOR + output) == Reference(stack, output)
  {
    SplitAfterHead(stack, output);
    SplitNone(output, SEPARATOR);
  }

  /** What the first two pieces of a text say about it. */
  lemma PairOfDetails(details: string, stack: string, output: string)
    requires ParseDetails(details) == Reference(stack, output)
    ensures stack + SEPARATOR + output <= details
    ensures !Occurs(stack, SEPARATOR) && !Occurs(output, SEPARATOR)
    ensures stack == "" || stack[|stack| - 1] != ':'
  {
    hide Split, Find, Before;
    SplitTwo(details, SEPARATOR);
    var n := Find(details, SEPARATOR);
    var tail := details[n + 2..];
    assert stack == details[..n] && output == Before(tail, SEPARATOR);
    BeforeIsClean(details, SEPARATOR);
    BeforeIsClean(tail, SEPARATOR);
    assert details == stack + SEPARATOR + tail;
    CharAt(details, SEPARATOR, n, n);
    if stack != "" && details[n - 1] == ':' {
      ColonsAt(details, n - 1);
    }
  }

  /** What one parameter value resolves to. Only Refused carries an error; OutOfRange is a panic. */
  datatype Resolution = Literal | Resolved(value: string) | Unavailable | Refused | OutOfRange

  /** GetResourceFromStackOutput: the first output with the wanted key. An empty value counts as missing. */
  function StackOutput(reply: DescribeReply, output: string): Resolution {
    match reply
    case DescribeFailed(_) => Refused
    case NoStackList => Unavailable
    case Stacks(list) =>
      if list == [] then OutOfRange
      else
        var value := FirstValue(list[0].outputs, output);
        if value == None || value == Some("") then Unavailable else Resolved(value.value)
  }

  /** The value of the first entry with the given key. */
  function FirstValue(entries: seq<Pair>, key: string): (r: Option<string>)
    ensures r.None? <==> forall e :: e in entries ==> e.key != key
    ensures r.Some? ==>
      exists i :: && 0 <= i < |entries| && entries[i] == Pair(key, r.value)
                  && forall j :: 0 <= j < i ==> entries[j].key != key
  {
    if entries == [] then None
    else if entries[0].key == key then Some(entries[0].value)
    else FirstValue(entries[1..], key)
  }

  /** The value v is that of the first output with this key. */
  ghost predicate HasOutput(reply: DescribeReply, output: string, v: string) {
    && reply.Stacks? && reply.list != []
    && exists i :: && 0 <= i < |reply.list[0].outputs| && reply.list[0].outputs[i] == Pair(output, v)
                   && forall j :: 0 <= j < i ==> reply.list[0].outputs[j].key != output
  }

  /** What a lookup gives, by the reply alone: the first output of that name, no result without one or with an empty
      one, an error when the stack cannot be described, and an index out of range on an empty list. */
  lemma OutputMeaning(reply: DescribeReply, output: string)
    ensures forall v :: StackOutput(reply, output) == Resolved(v) <==> v != "" && HasOutput(reply, output, v)
    ensures StackOutput(reply, output) == Unavailable <==>
      reply.NoStackList?
      || (reply.Stacks? && reply.list != [] && forall v :: HasOutput(reply, output, v) ==> v == "")
    ensures StackOutput(reply, output) == Refused <==> reply.DescribeFailed?
    ensures StackOutput(reply, output) == OutOfRange <==> reply == Stacks([])
    ensures StackOutput(reply, output) != Literal
  {
    if reply.Stacks? && reply.list != [] {
      var value := FirstValue(reply.list[0].outputs, output);
      forall v ensures HasOutput(reply, output, v) <==> value == Some(v) {
        FirstIsOne(reply.list[0].outputs, output, v);
      }
    }
  }

  lemma FirstIsOne(entries: seq<Pair>, key: string, v: string)
    ensures FirstValue(entries, key) == Some(v) <==>
      exists i :: && 0 <= i < |entries| && entries[i] == Pair(key, v)
                  && forall j :: 0 <= j < i ==> entries[j].key != key
  {
    hide FirstValue;
    if i :| 0 <= i < |entries| && entries[i] == Pair(key, v) && forall j :: 0 <= j < i ==> entries[j].key != key {
      assert entries[i] in entries;
      var value := FirstValue(entries, key);
      var k :| 0 <= k < |entries| && entries[k] == Pair(key, value.value)
        && forall j :: 0 <= j < k ==> entries[j].key != key;
      assert i == k;
    }
  }

  /** The reply for a stack name; a name without an entry is a stack that does not exist. */
  function Describe(stacks: map<string, DescribeReply>, name: string): DescribeReply {
    if name in stacks then stacks[name] else DescribeFailed(true)
  }

  function Resolve(value: string, stacks: map<string, DescribeReply>): Resolution {
    match ParseReference(value)
    case Plain => Literal
    case Malformed => OutOfRange
    case Reference(stack, output) => StackOutput(Describe(stacks, stack), output)
  }

  /** A text that does not start with a marker, such as an ARN, is left alone, and so is one without "::". */
  lemma PlainTexts(value: string)
    ensures ParseReference(value) == Plain <==>
      !Occurs(value, "::") || !("!stack_output " <= value || "!stack_output_external " <= value)
  {
    hide Split, Find, Contains;
    assert |"!stack_output "| == 14 && "!stack_output "[13] == ' ' && "!stack_output_external "[13] == '_';
  }

  /** A printed reference resolves to the first output of that name on the stack of that name. */
  lemma PrintedResolution(marker: string, stack: string, output: string, stacks: map<string, DescribeReply>, v: string)
    requires marker in {"!stack_output ", "!stack_output_external "} && Printable(marker, stack, output)
    ensures Resolve(marker + stack + "::" + output, stacks) == Resolved(v)
       <==> v != "" && stack in stacks && HasOutput(stacks[stack], output, v)
    ensures Resolve(marker + stack + "::" + output, stacks) == Refused
       <==> stack !in stacks || stacks[stack].DescribeFailed?
  {
    hide ParseReference, StackOutput, Printable;
    ReferenceRoundTrip(marker, stack, output);
    assert marker + stack + "::" + output == PrintReference(marker, stack, output);
    OutputMeaning(Describe(stacks, stack), output);
  }

  predicate Available(r: Resolution) {
    r.Literal? || r.Resolved?
  }

  /** The answer of FetchReferenceResources: the list to write back, an empty list without an error, an empty list
      with an error, or a panic. */
  datatype Fetched = Values(list: seq<Pair>) | Nothing | Failed | Panicked

  /** The answer that a value which cannot be resolved forces. */
  function Abort(r: Resolution): Fetched
    requires !Available(r)
  {
    match r
    case Unavailable => Nothing
    case Refused => Failed
    case OutOfRange => Panicked
  }

  function Prepend(front: seq<Pair>, f: Fetched): Fetched {
    if f.Values? then Values(front + f.list) else f
  }

  /** The loop of FetchReferenceResources over one enumeration of the parameters. */
  function Fetch(order: seq<string>, m: map<string, string>, stacks: map<string, DescribeReply>): Fetched
    requires forall k :: k in order ==> k in m
  {
    if order == [] then Values([])
    else
      var r := Resolve(m[order[0]], stacks);
      if !Available(r) then Abort(r)
      else if r.Literal? then Fetch(order[1..], m, stacks)
      else Prepend([Pair(order[0], r.value)], Fetch(order[1..], m, stacks))
  }

  method FetchReferenceResources(order: seq<string>, m: map<string, string>, stacks: map<string, DescribeReply>)
    returns (f: Fetched)
    requires forall k :: k in order ==> k in m
    ensures f == Fetch(order, m, stacks)
  {
    var list: seq<Pair> := [];
    for i := 0 to |order|
      invariant Fetch(order, m, stacks) == Prepend(list, Fetch(order[i..], m, stacks))
    {
      assert order[i..][0] == order[i] && order[i..][1..] == order[i + 1..];
      var r := Resolve(m[order[i]], stacks);
      if !Available(r) {
        return Abort(r);
      }
      if r.Resolved? {
        ghost var rest := Fetch(order[i + 1..], m, stacks);
        var entry := Pair(order[i], r.value);
        assert rest.Values? ==> list + ([entry] + rest.list) == list + [entry] + rest.list;
        list := list + [entry];
      }
    }
    assert list + [] == list;
    f := Values(list);
  }

  /** The write-back loop of Reconcile. */
  function WriteBack(m: map<string, string>, list: seq<Pair>): map<string, string>
    decreases |list|
  {
    if list == [] then m else WriteBack(m[list[0].key := list[0].value], list[1..])
  }

  /** The parameters after one call of FetchReferenceResources and its write-back. */
  function After(m: map<string, string>, f: Fetched): map<string, string> {
    if f.Values? then WriteBack(m, f.list) else m
  }

  ghost predicate AllAvailable(m: map<string, string>, stacks: map<string, DescribeReply>) {
    forall k :: k in m ==> Available(Resolve(m[k], stacks))
  }

  /** Resolution as the documentation means it: all references at once, or none. */
  ghost function FinalParameters(m: map<string, string>, stacks: map<string, DescribeReply>): map<string, string> {
    if AllAvailable(m, stacks) then
      map k | k in m :: var r := Resolve(m[k], stacks); if r.Resolved? then r.value else m[k]
    else m
  }

  /** All or nothing, in every map order: a list comes back exactly when every reference resolves, and writing it
      back gives the same parameters whatever the order was. */
  lemma ResolutionAllOrNothing(order: seq<string>, m: map<string, string>, stacks: map<string, DescribeReply>)
    requires Enumerates(order, m)
    ensures Fetch(order, m, stacks).Values? <==> AllAvailable(m, stacks)
    ensures After(m, Fetch(order, m, stacks)) == FinalParameters(m, stacks)
    ensures FinalParameters(m, stacks).Keys == m.Keys
    ensures forall k :: k in m && Resolve(m[k], stacks).Literal? ==> FinalParameters(m, stacks)[k] == m[k]
  {
    hide Resolve, Fetch, WriteBack;
    FetchOfOrder(order, m, stacks);
    var f := Fetch(order, m, stacks);
    if f.Values? {
      forall k | k in m ensures Available(Resolve(m[k], stacks)) { assert k in order; }
      WriteBackOf(m, f.list);
      var final := FinalParameters(m, stacks);
      forall k | k in m
        ensures WriteBack(m, f.list)[k] == final[k]
      {
        assert k in order;
        var r := Resolve(m[k], stacks);
        if r.Resolved? { assert Pair(k, r.value) in f.list; }
      }
      assert After(m, f) == final;
    }
  }

  /** The same in one parameter: when no reference fails, a printed one is replaced by its output value and any other
      text stays; as soon as one fails, nothing changes. */
  lemma ResolvedParameter(order: seq<string>, m: map<string, string>, stacks: map<string, DescribeReply>, k: string)
    requires Enumerates(order, m) && k in m
    ensures var after := After(m, Fetch(order, m, stacks));
      && k in after
      && (!AllAvailable(m, stacks) ==> after == m)
      && (AllAvailable(m, stacks) && Resolve(m[k], stacks).Resolved? ==> after[k] == Resolve(m[k], stacks).value)
      && (ParseReference(m[k]).Plain? ==> after[k] == m[k])
  {
    ResolutionAllOrNothing(order, m, stacks);
    hide ParseReference, Fetch, WriteBack, StackOutput;
  }

  lemma WriteBackKeepsKeys(order: seq<string>, m: map<string, string>, stacks: map<string, DescribeReply>)
    requires Enumerates(order, m)
    ensures After(m, Fetch(order, m, stacks)).Keys == m.Keys
  {
    ResolutionAllOrNothing(order, m, stacks);
  }

  /** The list holds exactly one entry for each reference in the enumeration. */
  lemma {:induction false} FetchOfOrder(order: seq<string>, m: map<string, string>, stacks: map<string, DescribeReply>)
    requires forall k :: k in order ==> k in m
    requires forall i, j :: 0 <= i < j < |order| ==> order[i] != order[j]
    ensures Fetch(order, m, stacks).Values? <==> forall k :: k in order ==> Available(Resolve(m[k], stacks))
    ensures Fetch(order, m, stacks).Values? ==>
      var list := Fetch(order, m, stacks).list;
      && (forall e :: e in list ==> e.key in order && Resolve(m[e.key], stacks) == Resolved(e.value))
      && (forall k :: k in order && Resolve(m[k], stacks).Resolved? ==>
            Pair(k, Resolve(m[k], stacks).value) in list)
      && (forall i, j :: 0 <= i < j < |list| ==> list[i].key != list[j].key)
  {
    hide Resolve;
    if order != [] {
      FetchOfOrder(order[1..], m, stacks);
      assert order == [order[0]] + order[1..];
    }
  }

  /** Writing back key-unique entries of existing keys. */
  lemma {:induction false} WriteBackOf(m: map<string, string>, list: seq<Pair>)
    requires forall e :: e in list ==> e.key in m
    requires forall i, j :: 0 <= i < j < |list| ==> list[i].key != list[j].key
    ensures WriteBack(m, list).Keys == m.Keys
    ensures forall e :: e in list ==> WriteBack(m, list)[e.key] == e.value
    ensures forall k :: k in m && (forall e :: e in list ==> e.key != k) ==> WriteBack(m, list)[k] == m[k]
  {
    if list != [] {
      var m' := m[list[0].key := list[0].value];
      assert m'.Keys == m.Keys;
      assert list == [list[0]] + list[1..];
      WriteBackOf(m', list[1..]);
    }
  }

  /** What is left of an answer when the list is forgotten: the four ways the caller can continue. */
  datatype Ending = Listed | Silent | Erroneous | Aborted

  function EndingOf(f: Fetched): Ending {
    match f
    case Values(_) => Listed
    case Nothing => Silent
    case Failed => Erroneous
    case Panicked => Aborted
  }

  /** All values that cannot be resolved fail in the same way. */
  ghost predicate UniformFailures(m: map<string, string>, stacks: map<string, DescribeReply>) {
    forall j, k :: j in m && k in m
      && !Available(Resolve(m[j], stacks)) && !Available(Resolve(m[k], stacks))
      ==> Resolve(m[j], stacks) == Resolve(m[k], stacks)
  }

  ghost predicate OrderMatters(m: map<string, string>, stacks: map<string, DescribeReply>) {
    exists o, p :: Enumerates(o, m) && Enumerates(p, m)
      && EndingOf(Fetch(o, m, stacks)) != EndingOf(Fetch(p, m, stacks))
  }

  /** The parameters never depend on the map order, but the way the call ends does, exactly when two values fail
      differently: then the order decides whether Failure is stored, the reference text is kept silently, or the
      reconcile panics. */
  lemma EndingDependsOnOrder(m: map<string, string>, stacks: map<string, DescribeReply>)
    ensures OrderMatters(m, stacks) <==> !UniformFailures(m, stacks)
  {
    hide Resolve;
    if !UniformFailures(m, stacks) {
      var j, k :| j in m && k in m
        && !Available(Resolve(m[j], stacks)) && !Available(Resolve(m[k], stacks))
        && Resolve(m[j], stacks) != Resolve(m[k], stacks);
      var o := EnumerationFrom(m, j);
      var p := EnumerationFrom(m, k);
      assert Fetch(o, m, stacks) == Abort(Resolve(m[j], stacks));
      assert Fetch(p, m, stacks) == Abort(Resolve(m[k], stacks));
      assert OrderMatters(m, stacks);
    }
    if OrderMatters(m, stacks) && UniformFailures(m, stacks) {
      var o, p :| Enumerates(o, m) && Enumerates(p, m)
        && EndingOf(Fetch(o, m, stacks)) != EndingOf(Fetch(p, m, stacks));
      FetchEnding(o, m, stacks);
      FetchEnding(p, m, stacks);
      ResolutionAllOrNothing(o, m, stacks);
      ResolutionAllOrNothing(p, m, stacks);
      assert false;
    }
  }

  const NO_SUCH_STACK := "!stack_output x::o"
  const NO_STACK_NAME := "!stack_output a!stack_output ::b"

  /** Such values exist: a reference to a stack that is not there is an error, and a text with the marker inside its
      stack name leaves the parser without a second piece, which panics. Next to each other they make the order
      decide. */
  lemma DifferentFailures()
    ensures Resolve(NO_SUCH_STACK, map[]) == Refused && Resolve(NO_STACK_NAME, map[]) == OutOfRange
    ensures OrderMatters(map["p" := NO_SUCH_STACK, "q" := NO_STACK_NAME], map[])
  {
    hide Split, Find, Resolve, OrderMatters;
    NoSuchStack();
    NoStackName();
    var m := map["p" := NO_SUCH_STACK, "q" := NO_STACK_NAME];
    assert m["p"] == NO_SUCH_STACK && m["q"] == NO_STACK_NAME;
    assert !Available(Resolve(m["p"], map[])) && !Available(Resolve(m["q"], map[]));
    EndingDependsOnOrder(m, map[]);
  }

  lemma NoSuchStack()
    ensures Resolve(NO_SUCH_STACK, map[]) == Refused
  {
    hide Split, Find, ParseReference, HasPrefix;
    assert !Occurs("x", SEPARATOR) && !Occurs("o", SEPARATOR);
    assert !Occurs("x", OUTPUT_MARKER) && !Occurs("o", OUTPUT_MARKER);
    ReferenceRoundTrip(OUTPUT_MARKER, "x", "o");
    assert NO_SUCH_STACK == PrintReference(OUTPUT_MARKER, "x", "o");
  }

  lemma NoStackName()
    ensures Resolve(NO_STACK_NAME, map[]) == OutOfRange
  {
    hide Split, Find, ParseReference, HasPrefix, FindFrom;
    PrintedDetails(OUTPUT_MARKER, "a" + OUTPUT_MARKER, "b");
    BeforeSecondMarker();
    SplitNone("a", SEPARATOR);
    assert NO_STACK_NAME == PrintReference(OUTPUT_MARKER, "a" + OUTPUT_MARKER, "b");
  }

  lemma BeforeSecondMarker()
    ensures Before("a" + OUTPUT_MARKER + SEPARATOR + "b", OUTPUT_MARKER) == "a"
  {
    hide Split, Find, FindFrom;
    var rest := "a" + OUTPUT_MARKER + SEPARATOR + "b";
    assert rest[1..1 + |OUTPUT_MARKER|] == OUTPUT_MARKER;
    assert rest[0] != OUTPUT_MARKER[0] && rest[0..|OUTPUT_MARKER|][0] == rest[0];
    SplitAt(rest, OUTPUT_MARKER, 1);
  }

  /** A call that returns no list ends the way one of its values does. */
  lemma {:induction false} FetchEnding(order: seq<string>, m: map<string, string>, stacks: map<string, DescribeReply>)
    requires forall k :: k in order ==> k in m
    ensures var f := Fetch(order, m, stacks); !f.Values? ==>
      exists k :: k in order && !Available(Resolve(m[k], stacks)) && f == Abort(Resolve(m[k], stacks))
  {
    hide Resolve;
    if order != [] {
      FetchEnding(order[1..], m, stacks);
      assert order[0] in order;
    }
  }
}
