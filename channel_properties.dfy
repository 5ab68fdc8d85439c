/** What the renderings and the resolve pass of a channel node promise. */
module ChannelProperties {
  import opened Wrappers
  import opened Strings
  import opened JavaLang
  import opened ChannelDsl

  // ----- getNameComponents and getIndexingComponents -----------------------------------

  /** No name components give ""; otherwise the names appear in order, the text starts
      with the first and ends with the last (no separator is added before the first name
      or after the last), and a colon stands between each two. */
  lemma NameComponentsShape(v: ChannelValue)
    ensures |v.names| == 0 ==> NameComponents(v) == ""
    ensures |v.names| >= 1 ==>
      var s := NameComponents(v);
      && |s| == TotalLength(v.names) + |v.names| - 1
      && s[..|v.names[0]|] == v.names[0]
      && |s| >= |v.names[|v.names| - 1]|
      && s[|s| - |v.names[|v.names| - 1]|..] == v.names[|v.names| - 1]
  {
    if |v.names| >= 1 {
      JoinLength(v.names, ':');
      JoinBoundaries(v.names, ':');
    }
  }

  /** Colon-free name components are recovered by cutting the joined text at colons. */
  lemma NameComponentsRoundTrip(v: ChannelValue)
    requires |v.names| >= 1 && SeparatorFree(v.names, ':')
    ensures Split(NameComponents(v), ':') == v.names
  {
    SplitJoin(v.names, ':');
  }

  /** The indexing text is the concatenation of "." + e over the elements in order: ""
      for none, "." + e for one, and it distributes over every cut of the list. */
  lemma {:induction false} IndexingComponentsConcatenate(elems: seq<string>, k: nat)
    requires k <= |elems|
    ensures Dotted([]) == ""
    ensures |elems| == 1 ==> Dotted(elems) == "." + elems[0]
    ensures Dotted(elems) == Dotted(elems[..k]) + Dotted(elems[k..])
    ensures |Dotted(elems)| == TotalLength(elems) + |elems|
  {
    assert elems == elems[..k] + elems[k..];
    DottedAppend(elems[..k], elems[k..]);
    DottedLength(elems);
  }

  lemma {:induction false} DottedLength(elems: seq<string>)
    ensures |Dotted(elems)| == TotalLength(elems) + |elems|
  {
    if |elems| > 0 {
      DottedLength(elems[1..]);
    }
  }

  /** A non-empty indexing text is a dot followed by the elements joined with dots. */
  lemma {:induction false} DottedIsDotJoin(elems: seq<string>)
    requires |elems| >= 1
    ensures Dotted(elems) == "." + Join(elems, '.')
  {
    if |elems| > 1 {
      DottedIsDotJoin(elems[1..]);
    }
  }

  /** Reads an indexing text back into its elements. */
  function SplitIndexing(s: string): seq<string>
  {
    if |s| == 0 then [] else Split(s[1..], '.')
  }

  /** Dot-free indexing elements are recovered from their rendering. */
  lemma IndexingComponentsRoundTrip(v: ChannelValue)
    requires SeparatorFree(v.indexing, '.')
    ensures SplitIndexing(IndexingComponents(v)) == v.indexing
  {
    if |v.indexing| >= 1 {
      DottedIsDotJoin(v.indexing);
      SplitJoin(v.indexing, '.');
    }
  }

  /** Rendering the names cut from a text at its colons gives that text back. */
  lemma NameComponentsFromText(v: ChannelValue, text: string)
    requires v.names == Split(text, ':')
    ensures NameComponents(v) == text
  {
    JoinSplit(text, ':');
  }

  /** Rendering the elements read from an indexing text gives that text back, when it is
      empty or starts with a dot. */
  lemma IndexingComponentsFromText(v: ChannelValue, text: string)
    requires |text| == 0 || text[0] == '.'
    requires v.indexing == SplitIndexing(text)
    ensures IndexingComponents(v) == text
  {
    if |text| > 0 {
      JoinSplit(text[1..], '.');
      DottedIsDotJoin(v.indexing);
      assert text == "." + text[1..];
    }
  }

  // ----- toString, getChannelName and getStreamName --------------------------------------

  /** A join of parts that avoid `c` avoids `c`, when `c` is not the separator. */
  lemma {:induction false} JoinAvoids(parts: seq<string>, sep: char, c: char)
    requires c != sep && SeparatorFree(parts, c)
    ensures c !in Join(parts, sep)
  {
    if |parts| > 1 {
      JoinAvoids(parts[1..], sep, c);
    }
  }

  /** Reads the names-and-indexing text of a channel back: colon-separated names up to the
      first dot, dot-separated indexing elements after it. */
  function ParseChannelText(s: string): (seq<string>, seq<string>)
  {
    match IndexOf(s, '.')
    case None => (Split(s, ':'), [])
    case Some(i) => (Split(s[..i], ':'), Split(s[i + 1..], '.'))
  }

  /** toString, getChannelName and getStreamName are all built from one part: the names
      followed by the indexing. */
  lemma RenderingsShareParts(v: ChannelValue)
    ensures var part := NameComponents(v) + IndexingComponents(v);
      && Rendered(v) == v.channelType.stringRepresentation + part
      && ChannelName(v) == (if v.channelType.isTap then "tap:" else "") + part
      && (IsTapStream(v.channelType) <==> StreamName(v) == Some(NameComponents(v)))
  {
  }

  /** That part reads back to the node's two lists when no name holds a colon or a dot
      and no indexing element holds a dot. */
  lemma ChannelTextRoundTrip(v: ChannelValue)
    requires |v.names| >= 1 && SeparatorFree(v.names, ':') && SeparatorFree(v.names, '.')
    requires SeparatorFree(v.indexing, '.')
    ensures ParseChannelText(NameComponents(v) + IndexingComponents(v)) == (v.names, v.indexing)
  {
    var names := NameComponents(v);
    JoinAvoids(v.names, ':', '.');
    SplitJoin(v.names, ':');
    if |v.indexing| == 0 {
      assert names + IndexingComponents(v) == names;
      assert IndexOf(names, '.').None?;
    } else {
      DottedIsDotJoin(v.indexing);
      var rest := Join(v.indexing, '.');
      var part := names + ['.'] + rest;
      assert names + IndexingComponents(v) == part;
      IndexOfPastPrefix(names, '.', rest);
      assert part[..|names|] == names;
      assert part[|names| + 1..] == rest;
      SplitJoin(v.indexing, '.');
    }
  }

  // ----- stringify ------------------------------------------------------------------------

  /** Inside the parentheses stringify writes the toString text, except that a first name
      component repeating the tapped type's name (ignoring case) is left out, and only
      that one component. */
  lemma StringifyDropsOnlyTapSource(v: ChannelValue)
    ensures !DropsTapSource(v) ==> Stringified(v, false) == "(" + Rendered(v) + ")"
    ensures DropsTapSource(v) ==>
      Stringified(v, false) == "(" + Rendered(v.(names := v.names[1..])) + ")"
  {
    var rep := v.channelType.stringRepresentation;
    var shown := v.(names := ShownNames(v));
    assert Stringified(v, false) == "(" + rep + Join(shown.names, ':') + Dotted(v.indexing) + "" + ")";
    assert Rendered(shown) == rep + Join(shown.names, ':') + Dotted(v.indexing);
    assert Stringified(v, false) == "(" + Rendered(shown) + ")";
  }

  /** Positional information only appends `:start>end` before the closing parenthesis,
      and each position reads back to the same int. */
  lemma StringifyPositionalInfo(v: ChannelValue)
    ensures var plain := Stringified(v, false);
      Stringified(v, true)
      == plain[..|plain| - 1] + ":" + IntToString(v.startPos) + ">" + IntToString(v.endPos) + ")"
    ensures ParseInt(IntToString(v.startPos)) == Some(v.startPos as int)
    ensures ParseInt(IntToString(v.endPos)) == Some(v.endPos as int)
  {
    var body := "(" + v.channelType.stringRepresentation + Join(ShownNames(v), ':') + Dotted(v.indexing);
    StringifyPieces(v);
    InsertBeforeClose(body, PositionSuffix(v));
    ParseIntToString(v.startPos);
    ParseIntToString(v.endPos);
  }

  /** The two forms of stringify share everything before the closing parenthesis but the
      position suffix. */
  lemma StringifyPieces(v: ChannelValue)
    ensures var body := "(" + v.channelType.stringRepresentation + Join(ShownNames(v), ':') + Dotted(v.indexing);
      && Stringified(v, false) == body + "" + ")"
      && Stringified(v, true) == body + PositionSuffix(v) + ")"
  {
  }

  /** Inserting a suffix before a closing parenthesis. */
  lemma InsertBeforeClose(body: string, suffix: string)
    ensures var plain := body + "" + ")";
      body + suffix + ")" == plain[..|plain| - 1] + suffix + ")"
  {
    var plain := body + "" + ")";
    assert plain == body + [')'];
    assert plain[..|plain| - 1] == body;
  }

  /** Whether the first component is dropped ignores the case of ASCII letters. */
  lemma StringifyDropIgnoresCase(v: ChannelValue)
    requires |v.names| > 0 && v.channelType.isTap
    ensures DropsTapSource(v) <==> LowerAscii(v.names[0]) == LowerAscii(v.channelType.tapSource)
  {
    EqualsIgnoreCaseIsLowerEquality(v.names[0], v.channelType.tapSource);
  }

  // ----- resolve --------------------------------------------------------------------------

  /** Only stream taps are resolved: any other channel keeps its list, untouched. */
  lemma ResolveOnlyStreamTaps(v: ChannelValue, env: StreamLookupEnvironment)
    requires !IsTapStream(v.channelType)
    ensures Resolved(v, env) == Resolution(v.indexing, false, None)
  {
  }

  /** A stream tap without an index: an unknown stream is reported by name at position -1;
      a known one makes the field a new list holding exactly the first module's name. */
  lemma ResolveWithoutIndex(v: ChannelValue, env: StreamLookupEnvironment)
    requires IsTapStream(v.channelType) && |v.indexing| == 0
    ensures var r := Resolved(v, env);
      && (NameComponents(v) !in env.streams ==>
            r == Resolution([], false,
                   Some(StreamDefinitionException("", -1, UnrecognizedStreamReference, [StreamName(v).value]))))
      && (NameComponents(v) in env.streams && |env.streams[NameComponents(v)].moduleNodes| > 0 ==>
            r == Resolution([env.streams[NameComponents(v)].moduleNodes[0].name], true, None))
  {
  }

  /** A stream tap whose first indexing element is the number `i`: an unknown stream is
      reported and nothing changes; otherwise, in place, only element 0 becomes module
      i's name, the rest and the length staying as they were; and an index outside the
      pipeline is an error, never a default. */
  lemma ResolveNumericIndex(v: ChannelValue, env: StreamLookupEnvironment, i: int)
    requires IsTapStream(v.channelType) && |v.indexing| >= 1 && ParseInt(v.indexing[0]) == Some(i)
    ensures var r := Resolved(v, env);
      && !r.rebound
      && (NameComponents(v) !in env.streams ==>
            r.indexing == v.indexing && r.error == Some(UnrecognizedStream(NameComponents(v))))
      && (NameComponents(v) in env.streams ==>
            var modules := env.streams[NameComponents(v)].moduleNodes;
            && (0 <= i < |modules| ==>
                  && r.error == None
                  && |r.indexing| == |v.indexing|
                  && r.indexing[0] == modules[i].name
                  && r.indexing[1..] == v.indexing[1..])
            && (!(0 <= i < |modules|) ==>
                  r.error == Some(IndexOutOfBoundsException(i, |modules|))))
  {
  }

  /** A first indexing element that is not a number is a module label: no lookup is made
      (the outcome is the same in every environment), nothing changes and nothing is
      thrown, even when the stream does not exist. */
  lemma ResolveLabelUntouched(v: ChannelValue, env1: StreamLookupEnvironment, env2: StreamLookupEnvironment)
    requires |v.indexing| >= 1 && ParseInt(v.indexing[0]).None?
    ensures Resolved(v, env1) == Resolved(v, env2) == Resolution(v.indexing, false, None)
  {
  }

  /** A successful resolve of a stream tap leaves an index naming a module of the tapped
      stream, unless it was a label to begin with. */
  lemma ResolvedTargetsModule(v: ChannelValue, env: StreamLookupEnvironment)
    requires IsTapStream(v.channelType) && Resolved(v, env).error.None?
    ensures |Resolved(v, env).indexing| >= 1
    ensures |v.indexing| == 0 || ParseInt(v.indexing[0]).Some? ==>
      && NameComponents(v) in env.streams
      && exists k :: 0 <= k < |env.streams[NameComponents(v)].moduleNodes|
                     && env.streams[NameComponents(v)].moduleNodes[k].name == Resolved(v, env).indexing[0]
  {
    var r := Resolved(v, env);
    if |v.indexing| == 0 {
      assert env.streams[NameComponents(v)].moduleNodes[0].name == r.indexing[0];
    } else if ParseInt(v.indexing[0]).Some? {
      var i := ParseInt(v.indexing[0]).value;
      assert env.streams[NameComponents(v)].moduleNodes[i].name == r.indexing[0];
    }
  }

  /** Resolving again after a successful resolve changes nothing when the module name it
      produced is not a number. */
  lemma ResolveIdempotent(v: ChannelValue, env: StreamLookupEnvironment)
    requires Resolved(v, env).error.None?
    requires |Resolved(v, env).indexing| >= 1 ==> ParseInt(Resolved(v, env).indexing[0]).None?
    ensures var again := v.(indexing := Resolved(v, env).indexing);
      Resolved(again, env) == Resolution(again.indexing, false, None)
  {
    if IsTapStream(v.channelType) {
      ResolvedTargetsModule(v, env);
    }
  }

  /** Sample resolutions of the two channel shapes a tap is written in, `tap:<stream>`
      and `tap:<stream>.<module>`, against a stream `main` of modules http, transform
      and file, and against a stream that is not defined. */
  lemma TapExamples()
    ensures var tap := ChannelType(TapStreamName, "tap:", true, "STREAM");
      var env := StreamLookupEnvironment(map["main" := StreamNode([ModuleNode("http"), ModuleNode("transform"), ModuleNode("file")])]);
      && Resolved(ChannelValue(tap, 0, 8, ["main"], []), env) == Resolution(["http"], true, None)
      && Resolved(ChannelValue(tap, 0, 10, ["main"], ["2"]), env) == Resolution(["file"], false, None)
      && Resolved(ChannelValue(tap, 0, 10, ["main"], ["9"]), env).error == Some(IndexOutOfBoundsException(9, 3))
      && Resolved(ChannelValue(tap, 0, 13, ["main"], ["http"]), env) == Resolution(["http"], false, None)
      && Resolved(ChannelValue(tap, 0, 16, ["doesnotexist"], []), env).error
         == Some(StreamDefinitionException("", -1, UnrecognizedStreamReference, ["doesnotexist"]))
  {
    var two := "2";
    assert AllDigits(two) && DigitsValue(two) == 2;
    var nine := "9";
    assert AllDigits(nine) && DigitsValue(nine) == 9;
    assert !IsDigit("http"[0]);
  }

  // ----- copyOf shares the lists ----------------------------------------------------------

  /** Resolving a shallow copy: a numeric index rewritten in place is seen through the
      original node, while the new list of an index-less tap is not. */
  method ResolveCopy(n: ChannelNode, env: StreamLookupEnvironment)
    returns (copy: ChannelNode, thrown: Option<ResolveError>)
    modifies n.indexingElements
    ensures fresh(copy)
    ensures var r := Resolved(old(n.Value()), env);
      && thrown == r.error
      && copy.indexingElements.elems == r.indexing
      && n.indexingElements == old(n.indexingElements)
      && n.indexingElements.elems == (if r.rebound then old(n.indexingElements.elems) else r.indexing)
  {
    copy := n.CopyOf();
    thrown := copy.Resolve(env);
  }
}
