/** The channel reference node of the stream definition language (`queue:foo`,
    `tap:mystream.2`, ...): its renderings and the pass that resolves a stream tap
    against the streams already defined. */
module ChannelDsl {
  import opened Wrappers
  import opened Strings
  import opened JavaLang
  import opened JavaUtil

  /** What the node observes of a channel type: its enum constant name, the prefix it
      is written with, whether it is a tap, and (for a tap) the name of the type it taps. */
  datatype ChannelType = ChannelType(
    name: string,
    stringRepresentation: string,
    isTap: bool,
    tapSource: string)

  const TapStreamName: string := "TAP_STREAM"

  /** `channelType == ChannelType.TAP_STREAM`: enum constants are equal exactly when
      their names are. */
  predicate IsTapStream(t: ChannelType)
  {
    t.name == TapStreamName
  }

  /** A module of a defined stream, seen only through its name. */
  datatype ModuleNode = ModuleNode(name: string)

  /** A defined stream, seen only through its modules in pipeline order. */
  datatype StreamNode = StreamNode(moduleNodes: seq<ModuleNode>)

  /** The streams defined so far, by name. */
  datatype StreamLookupEnvironment = StreamLookupEnvironment(streams: map<string, StreamNode>)
  {
    /** lookupStream: the stream of that name, or None where the source returns null. */
    function LookupStream(name: string): Option<StreamNode>
    {
      if name in streams then Some(streams[name]) else None
    }
  }

  datatype DslMessage = UnrecognizedStreamReference

  /** What resolve can throw: the DSL's own exception (definition text, position, message
      code and its inserts) or the IndexOutOfBoundsException of List.get. */
  datatype ResolveError =
    | StreamDefinitionException(expression: string, position: int, message: DslMessage, inserts: seq<string>)
    | IndexOutOfBoundsException(index: int, size: nat)

  /** The state of a channel node at one moment: its type, source span, and the
      current contents of its two lists. */
  datatype ChannelValue = ChannelValue(
    channelType: ChannelType,
    startPos: Int32,
    endPos: Int32,
    names: seq<string>,
    indexing: seq<string>)

  /** The indexing elements, each written with a leading dot. */
  function Dotted(elems: seq<string>): string
  {
    if |elems| == 0 then "" else "." + elems[0] + Dotted(elems[1..])
  }

  /** Dotting distributes over concatenation. */
  lemma {:induction false} DottedAppend(a: seq<string>, b: seq<string>)
    ensures Dotted(a + b) == Dotted(a) + Dotted(b)
  {
    if |a| > 0 {
      assert (a + b)[1..] == a[1..] + b;
      DottedAppend(a[1..], b);
    } else {
      assert a + b == b;
    }
  }

  /** getNameComponents: the name components joined by colons. */
  function NameComponents(v: ChannelValue): string
  {
    Join(v.names, ':')
  }

  /** getIndexingComponents */
  function IndexingComponents(v: ChannelValue): string
  {
    Dotted(v.indexing)
  }

  /** toString */
  function Rendered(v: ChannelValue): string
  {
    v.channelType.stringRepresentation + NameComponents(v) + IndexingComponents(v)
  }

  /** getChannelName */
  function ChannelName(v: ChannelValue): string
  {
    (if v.channelType.isTap then "tap:" else "") + NameComponents(v) + IndexingComponents(v)
  }

  /** getStreamName: defined for stream taps only (null otherwise). */
  function StreamName(v: ChannelValue): Option<string>
  {
    if IsTapStream(v.channelType) then Some(NameComponents(v)) else None
  }

  /** stringify leaves out a first name component that repeats the tapped type's name. */
  predicate DropsTapSource(v: ChannelValue)
  {
    |v.names| > 0 && v.channelType.isTap && EqualsIgnoreCase(v.names[0], v.channelType.tapSource)
  }

  /** The name components stringify writes. */
  function ShownNames(v: ChannelValue): seq<string>
  {
    if DropsTapSource(v) then v.names[1..] else v.names
  }

  /** The `:start>end` suffix of stringify(true). */
  function PositionSuffix(v: ChannelValue): string
  {
    ":" + IntToString(v.startPos) + ">" + IntToString(v.endPos)
  }

  /** stringify(includePositionalInfo) */
  function Stringified(v: ChannelValue, includePositionalInfo: bool): (r: string)
    ensures |r| >= 2 && r[0] == '(' && r[|r| - 1] == ')'
  {
    "(" + v.channelType.stringRepresentation + Join(ShownNames(v), ':') + Dotted(v.indexing)
    + (if includePositionalInfo then PositionSuffix(v) else "") + ")"
  }

  /** The effect of resolve: the contents of the indexing list afterwards, whether the
      field was rebound to a new list, and what was thrown. */
  datatype Resolution = Resolution(indexing: seq<string>, rebound: bool, error: Option<ResolveError>)

  function UnrecognizedStream(streamName: string): ResolveError
  {
    StreamDefinitionException("", -1, UnrecognizedStreamReference, [streamName])
  }

  /** resolve(env), on the node's state. Effects that happen before an exception is
      thrown are kept: a numeric index out of range has already removed the first
      element, and a stream without modules has already rebound the field to an empty
      list. */
  function Resolved(v: ChannelValue, env: StreamLookupEnvironment): (r: Resolution)
    ensures r.error.Some? ==> IsTapStream(v.channelType)
    ensures r.rebound ==> IsTapStream(v.channelType) && |v.indexing| == 0
    ensures r.error.None? && !r.rebound ==> |r.indexing| == |v.indexing|
    ensures r.error.None? && IsTapStream(v.channelType) ==> |r.indexing| >= 1
    ensures r.error.None? && |v.indexing| >= 1 ==> r.indexing[1..] == v.indexing[1..]
  {
    if !IsTapStream(v.channelType) then Resolution(v.indexing, false, None)
    else
      var streamName := NameComponents(v);
      if |v.indexing| == 0 then
        match env.LookupStream(streamName)
        case None => Resolution(v.indexing, false, Some(UnrecognizedStream(streamName)))
        case Some(sn) =>
          if |sn.moduleNodes| == 0 then Resolution([], true, Some(IndexOutOfBoundsException(0, 0)))
          else Resolution([sn.moduleNodes[0].name], true, None)
      else
        match ParseInt(v.indexing[0])
        case None => Resolution(v.indexing, false, None)
        case Some(index) =>
          match env.LookupStream(streamName)
          case None => Resolution(v.indexing, false, Some(UnrecognizedStream(streamName)))
          case Some(sn) =>
            if 0 <= index < |sn.moduleNodes| then
              Resolution([sn.moduleNodes[index].name] + v.indexing[1..], false, None)
            else
              Resolution(v.indexing[1..], false, Some(IndexOutOfBoundsException(index, |sn.moduleNodes|)))
  }

  class ChannelNode {
    const channelType: ChannelType
    const startPos: Int32
    const endPos: Int32
    const nameComponents: StringList
    var indexingElements: StringList

    /** The node keeps the very lists it is given: no copy is made. */
    constructor (channelType: ChannelType, startPos: Int32, endPos: Int32,
                 nameElements: StringList, indexingElements: StringList)
      ensures this.channelType == channelType
      ensures this.startPos == startPos && this.endPos == endPos
      ensures this.nameComponents == nameElements && this.indexingElements == indexingElements
    {
      this.channelType := channelType;
      this.startPos := startPos;
      this.endPos := endPos;
      this.nameComponents := nameElements;
      this.indexingElements := indexingElements;
    }

    /** The node's current state. */
    function Value(): ChannelValue
      reads this, nameComponents, indexingElements
    {
      ChannelValue(channelType, startPos, endPos, nameComponents.elems, indexingElements.elems)
    }

    method Stringify(includePositionalInfo: bool) returns (s: string)
      ensures s == Stringified(Value(), includePositionalInfo)
    {
      var names := nameComponents.elems;
      var indexing := indexingElements.elems;
      // The builder's contents are kept as three pieces: the text before the names, the
      // names written so far, and the indexing written so far.
      var prefix := "(" + channelType.stringRepresentation;
      var t := 0;
      if |names| > 0 && channelType.isTap && EqualsIgnoreCase(names[0], channelType.tapSource) {
        t := 1;
      }
      ghost var first := t;
      ghost var v := Value();
      var written := "";
      var max := |names|;
      while t < max
        invariant first <= t <= max
        invariant t == first ==> written == ""
        invariant first < t < max ==> written == Join(names[first..t], ':') + ":"
        invariant first < t == max ==> written == Join(names[first..t], ':')
      {
        JoinStep(names, first, t, ':');
        written := written + names[t];
        if t < |names| - 1 {
          written := written + ":";
        }
        t := t + 1;
      }
      assert names[first..t] == ShownNames(v);
      assert written == Join(ShownNames(v), ':');
      var dots := "";
      if |indexing| != 0 {
        var t2 := 0;
        while t2 < |indexing|
          invariant 0 <= t2 <= |indexing|
          invariant dots == Dotted(indexing[..t2])
        {
          assert indexing[..t2 + 1] == indexing[..t2] + [indexing[t2]];
          DottedAppend(indexing[..t2], [indexing[t2]]);
          dots := dots + "." + indexing[t2];
          t2 := t2 + 1;
        }
        assert indexing[..t2] == indexing;
      }
      assert dots == Dotted(indexing);
      var positions := "";
      if includePositionalInfo {
        positions := ":" + IntToString(startPos) + ">" + IntToString(endPos);
      }
      s := prefix + written + dots + positions + ")";
    }

    method ToString() returns (s: string)
      ensures s == Rendered(Value())
    {
      var names := GetNameComponents();
      var indexing := GetIndexingComponents();
      s := channelType.stringRepresentation + names + indexing;
    }

    method GetChannelName() returns (s: string)
      ensures s == ChannelName(Value())
    {
      s := "";
      if channelType.isTap {
        s := s + "tap:";
      }
      var names := GetNameComponents();
      var indexing := GetIndexingComponents();
      s := s + names + indexing;
    }

    method GetNameComponents() returns (s: string)
      ensures s == NameComponents(Value())
    {
      var names := nameComponents.elems;
      s := "";
      var t := 0;
      var max := |names|;
      while t < max
        invariant 0 <= t <= max
        invariant s == Join(names[..t], ':')
      {
        if t > 0 {
          assert names[..t + 1] == names[..t] + [names[t]];
          JoinSnoc(names[..t], names[t], ':');
          s := s + ":";
        } else {
          assert names[..t + 1] == [names[t]];
        }
        s := s + names[t];
        t := t + 1;
      }
      assert names[..t] == names;
    }

    method GetIndexingComponents() returns (s: string)
      ensures s == IndexingComponents(Value())
    {
      var indexing := indexingElements.elems;
      s := "";
      var t := 0;
      var max := |indexing|;
      while t < max
        invariant 0 <= t <= max
        invariant s == Dotted(indexing[..t])
      {
        assert indexing[..t + 1] == indexing[..t] + [indexing[t]];
        DottedAppend(indexing[..t], [indexing[t]]);
        s := s + ".";
        s := s + indexing[t];
        t := t + 1;
      }
      assert indexing[..t] == indexing;
    }

    method GetStreamName() returns (r: Option<string>)
      ensures r == StreamName(Value())
    {
      if IsTapStream(channelType) {
        var names := GetNameComponents();
        return Some(names);
      }
      return None;
    }

    method GetChannelType() returns (t: ChannelType)
      ensures t == channelType
    {
      return channelType;
    }

    /** A new node over the SAME two lists: changing a list through one node is seen
        through the other. */
    method CopyOf() returns (c: ChannelNode)
      ensures fresh(c)
      ensures c.Value() == Value()
      ensures c.nameComponents == nameComponents && c.indexingElements == indexingElements
    {
      c := new ChannelNode(channelType, startPos, endPos, nameComponents, indexingElements);
    }

    /** resolve(env). The indexing list is either replaced by a new list (tap with no
        index) or changed in place (numeric index); every holder of the old list sees an
        in-place change, the name list included when it is that same list. */
    method Resolve(env: StreamLookupEnvironment) returns (thrown: Option<ResolveError>)
      modifies this, indexingElements
      ensures thrown == Resolved(old(Value()), env).error
      ensures indexingElements.elems == Resolved(old(Value()), env).indexing
      ensures Resolved(old(Value()), env).rebound ==>
        fresh(indexingElements) && unchanged(old(indexingElements))
      ensures !Resolved(old(Value()), env).rebound ==> indexingElements == old(indexingElements)
      ensures nameComponents.elems
        == if nameComponents == old(indexingElements) && !Resolved(old(Value()), env).rebound
           then Resolved(old(Value()), env).indexing
           else old(nameComponents.elems)
    {
      ghost var r := Resolved(Value(), env);
      thrown := None;
      if IsTapStream(channelType) {
        if |indexingElements.elems| == 0 {
          var streamName := GetStreamName();
          var sn := env.LookupStream(streamName.value);
          if sn.None? {
            thrown := Some(UnrecognizedStream(streamName.value));
            assert r == Resolution([], false, thrown);
            return;
          }
          // Point to the first module of the stream.
          indexingElements := new StringList([]);
          if |sn.value.moduleNodes| == 0 {
            thrown := Some(IndexOutOfBoundsException(0, 0));
            assert r == Resolution([], true, thrown);
            return;
          }
          indexingElements.Add(sn.value.moduleNodes[0].name);
          assert r == Resolution([sn.value.moduleNodes[0].name], true, None);
        } else {
          var index := ParseInt(indexingElements.elems[0]);
          if index.Some? {
            var streamName := GetStreamName();
            var sn := env.LookupStream(streamName.value);
            if sn.None? {
              thrown := Some(UnrecognizedStream(streamName.value));
              assert r.indexing == indexingElements.elems && !r.rebound && r.error == thrown;
              return;
            }
            ghost var rest := indexingElements.elems[1..];
            var _ := indexingElements.RemoveAt(0);
            var modules := sn.value.moduleNodes;
            if !(0 <= index.value < |modules|) {
              thrown := Some(IndexOutOfBoundsException(index.value, |modules|));
              assert r == Resolution(rest, false, thrown);
              return;
            }
            indexingElements.Insert(0, modules[index.value].name);
            assert r == Resolution([modules[index.value].name] + rest, false, None);
          } else {
            assert r == Resolution(indexingElements.elems, false, None);
          }
        }
      } else {
        assert r == Resolution(indexingElements.elems, false, None);
      }
    }
  }
}
