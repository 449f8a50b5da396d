/**
 The marker-file check of `execute`: the anonymous `FilenameFilter` that keeps
 entries named like `Gruntfile.js` or `package.json` in any case, and the
 threshold on how many entries it kept.
 */
module Markers {
  import opened Optional
  import JavaStrings

  /** `GRUNT_FILE_NAME`. */
  const GruntFileName: string := "Gruntfile.js"
  /** `GRUNT_FILE_CONFIG`. */
  const GruntFileConfig: string := "package.json"
  /** The validation fails when the filtered listing has fewer entries than this. */
  const RequiredCount: nat := 2

  /** The filter's `accept`: the name equals one of the two markers ignoring case. */
  predicate Accept(name: string)
  {
    JavaStrings.EqualsIgnoreCase(name, GruntFileName) || JavaStrings.EqualsIgnoreCase(name, GruntFileConfig)
  }

  /** The positions of a directory listing that the filter accepts. */
  function AcceptedIndices(names: seq<string>): set<nat>
  {
    set i: nat | i < |names| && Accept(names[i])
  }

  /** Appending one entry adds its position exactly when the filter accepts it. */
  lemma {:induction false} AcceptedIndicesSnoc(names: seq<string>, last: string)
    ensures AcceptedIndices(names + [last]) == AcceptedIndices(names) + (if Accept(last) then {|names|} else {})
    ensures |names| !in AcceptedIndices(names)
  {
  }

  /**
   `listFiles(filter)` on a listing: the accepted entries in directory order.
   It keeps one entry per accepted position, so it counts entries, not
   distinct marker names.
   */
  function Matching(names: seq<string>): (files: seq<string>)
    ensures |files| == |AcceptedIndices(names)|
    ensures forall f :: f in files ==> Accept(f) && f in names
    ensures forall i :: 0 <= i < |names| && Accept(names[i]) ==> names[i] in files
    decreases |names|
  {
    if |names| == 0 then []
    else
      var init := names[..|names| - 1];
      var last := names[|names| - 1];
      assert names == init + [last];
      AcceptedIndicesSnoc(init, last);
      Matching(init) + (if Accept(last) then [last] else [])
  }

  /**
   The check at the head of `execute`: it passes exactly when the listing is
   non-null and at least two of its entries are accepted.
   */
  predicate Validate(listing: Option<seq<string>>)
    ensures Validate(listing) <==> listing.Some? && |AcceptedIndices(listing.value)| >= RequiredCount
  {
    listing.Some? && |Matching(listing.value)| >= RequiredCount
  }

  /** A null listing always fails. */
  lemma NullListingFails()
    ensures !Validate(None)
  {
  }

  /** Two distinct accepted entries are enough to pass. */
  lemma TwoAcceptedPass(names: seq<string>, i: nat, j: nat)
    requires i < |names| && j < |names| && i != j
    requires Accept(names[i]) && Accept(names[j])
    ensures Validate(Some(names))
  {
    var s := AcceptedIndices(names);
    assert {i, j} <= s;
    assert |{i, j}| == 2;
    SubsetCardinality({i, j}, s);
  }

  lemma {:induction false} SubsetCardinality(a: set<nat>, b: set<nat>)
    requires a <= b
    ensures |a| <= |b|
    decreases |a|
  {
    if a != {} {
      var x :| x in a;
      SubsetCardinality(a - {x}, b - {x});
    }
  }

  /** A listing in which no two entries are both accepted has at most one accepted position. */
  lemma {:induction false} AtMostOneAccepted(names: seq<string>)
    requires forall i, j :: 0 <= i < j < |names| ==> !(Accept(names[i]) && Accept(names[j]))
    ensures |AcceptedIndices(names)| <= 1
    decreases |names|
  {
    if |names| > 0 {
      var init, last := names[..|names| - 1], names[|names| - 1];
      assert names == init + [last];
      AcceptedIndicesSnoc(init, last);
      if Accept(last) {
        assert forall i :: 0 <= i < |init| ==> !Accept(init[i]) by {
          forall i | 0 <= i < |init|
            ensures !Accept(init[i])
          {
            assert init[i] == names[i];
          }
        }
        assert AcceptedIndices(init) == {};
      } else {
        assert forall i, j :: 0 <= i < j < |init| ==> init[i] == names[i] && init[j] == names[j];
        AtMostOneAccepted(init);
      }
    }
  }

  /** A listing whose accepted entries number at most one fails. */
  lemma FewerThanTwoFail(names: seq<string>)
    requires forall i, j :: 0 <= i < j < |names| ==> !(Accept(names[i]) && Accept(names[j]))
    ensures !Validate(Some(names))
  {
    AtMostOneAccepted(names);
  }

  /** An ASCII name is accepted exactly when its lower case is one of the two markers' lower cases. */
  lemma AcceptAscii(name: string)
    requires JavaStrings.IsAscii(name)
    ensures Accept(name) <==> JavaStrings.ToLowerCase(name) in {"gruntfile.js", "package.json"}
  {
    LowerMarkers();
    JavaStrings.EqualsIgnoreCaseAscii(name, GruntFileName);
    JavaStrings.EqualsIgnoreCaseAscii(name, GruntFileConfig);
  }

  lemma LowerMarkers()
    ensures JavaStrings.IsAscii(GruntFileName) && JavaStrings.IsAscii(GruntFileConfig)
    ensures JavaStrings.ToLowerCase(GruntFileName) == "gruntfile.js"
    ensures JavaStrings.ToLowerCase(GruntFileConfig) == "package.json"
  {
  }

  /**
   Both markers present, in any case, in two entries: the check passes.
   */
  lemma BothMarkersPass(names: seq<string>, i: nat, j: nat)
    requires i < |names| && j < |names|
    requires JavaStrings.EqualsIgnoreCase(names[i], GruntFileName)
    requires JavaStrings.EqualsIgnoreCase(names[j], GruntFileConfig)
    ensures Validate(Some(names))
  {
  }

  /**
   The check counts entries rather than distinct markers: two spellings of
   `package.json` on a case-sensitive file system pass without any
   `Gruntfile.js`.
   */
  lemma CountsEntriesNotMarkers()
    ensures Validate(Some(["package.json", "PACKAGE.JSON"]))
    ensures !JavaStrings.EqualsIgnoreCase("package.json", GruntFileName)
    ensures !JavaStrings.EqualsIgnoreCase("PACKAGE.JSON", GruntFileName)
  {
    var names := ["package.json", "PACKAGE.JSON"];
    NotGruntFile("package.json");
    NotGruntFile("PACKAGE.JSON");
    assert Accept(names[0]) by {
      assert JavaStrings.EqualsIgnoreCase(names[0], GruntFileConfig);
    }
    assert Accept(names[1]) by {
      UpperPackageAccepted();
    }
    TwoAcceptedPass(names, 0, 1);
  }

  lemma NotGruntFile(name: string)
    requires |name| > 0 && name[0] in "pP"
    ensures !JavaStrings.EqualsIgnoreCase(name, GruntFileName)
  {
  }

  lemma UpperPackageAccepted()
    ensures JavaStrings.EqualsIgnoreCase("PACKAGE.JSON", GruntFileConfig)
  {
    var upper := "PACKAGE.JSON";
    forall k | 0 <= k < |upper|
      ensures JavaStrings.CharEqualsIgnoreCase(upper[k], GruntFileConfig[k])
    {
      JavaStrings.CharEqualsIgnoreCaseAscii(upper[k], GruntFileConfig[k]);
    }
  }

  /** Java's case folding reaches past ASCII: a dotless i still spells `Gruntfile.js`. */
  lemma DotlessIAccepted()
    ensures Accept("Gruntf\U{0131}le.js")
  {
  }
}
