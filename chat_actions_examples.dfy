/** Worked replies for the action-marker scanner. */
module ChatActionsExamples {
  import opened Wrappers
  import opened Js
  import opened ChatActions

  lemma Param2Three()
    ensures Param2Of(":3") == Some(3)
  {
    assert DecimalValue("3") == 3 by { assert "3"[..0] == []; }
    assert ":3"[1..] == "3";
  }

  /** A marker with a page number: the digits after the second colon become `param2`. */
  lemma SetPageExample()
    ensures ActionsFrom("[ACTION:SET_PAGE:azuki:3]", 0) == [Action("SET_PAGE", "azuki", Some(3))]
  {
    SetPageFound("[ACTION:SET_PAGE:azuki:3]");
  }

  lemma SetPageText(s: string)
    requires s == "[ACTION:SET_PAGE:azuki:3]"
    ensures MarkerText("SET_PAGE", "azuki", ":3") == s
    ensures Fits("SET_PAGE", "azuki", ":3")
  {
    assert AllDigits(":3"[1..]) by { assert ":3"[1..] == "3"; }
  }

  lemma SetPageFound(s: string)
    requires s == "[ACTION:SET_PAGE:azuki:3]"
    ensures ActionsFrom(s, 0) == [Action("SET_PAGE", "azuki", Some(3))]
  {
    SetPageText(s);
    ActionAtComplete(s, 0, "SET_PAGE", "azuki", ":3");
    Param2Three();
    var a := Action("SET_PAGE", "azuki", Some(3));
    assert NextAction(s, 0) == Some(Found(a, |s|));
    assert ActionsFrom(s, |s|) == [];
  }

  /** A reply made of one directive displays as nothing. */
  lemma SetPageDisplaysEmpty()
    ensures DisplayedText("[ACTION:SET_PAGE:azuki:3]") == []
  {
    var s := "[ACTION:SET_PAGE:azuki:3]";
    SpanEndIs(s, 8, |s| - 1, IsNotClose);
    assert StripAt(s, 0) == Some(|s|);
    assert StripMarkers(s) == [];
  }

  /** A number right after the type is the first parameter, not the second. */
  lemma NumberIsFirstParameter()
    ensures ActionsFrom("[ACTION:X:12]", 0) == [Action("X", "12", None)]
  {
    var s := "[ACTION:X:12]";
    assert MarkerText("X", "12", "") == s;
    ActionAtComplete(s, 0, "X", "12", "");
  }

  /** A second parameter that is not a number: no directive, yet the marker is removed from
      the displayed text. */
  lemma MalformedMarkerOnlyStripped()
    ensures ActionsFrom("[ACTION:X:a:b]", 0) == []
    ensures StripMarkers("[ACTION:X:a:b]") == []
  {
    MalformedMarkerNoAction("[ACTION:X:a:b]");
    MalformedMarkerRemoved("[ACTION:X:a:b]");
  }

  lemma MalformedMarkerNoAction(s: string)
    requires s == "[ACTION:X:a:b]"
    ensures ActionsFrom(s, 0) == []
  {
    assert OpensAt(s, 0);
    SpanEndIs(s, 8, 9, IsWordChar);
    SpanEndIs(s, 10, 11, IsParamChar);
    SpanEndIs(s, 12, 12, IsDigit);
    assert ActionAt(s, 0) == None;
    forall p | 1 <= p < |s| ensures !OpensAt(s, p) {
      assert s[p] != '[';
    }
    assert NextAction(s, 0) == None by {
      NextActionNone(s, 1);
    }
  }

  lemma MalformedMarkerRemoved(s: string)
    requires s == "[ACTION:X:a:b]"
    ensures StripMarkers(s) == []
  {
    assert OpensAt(s, 0);
    SpanEndIs(s, 8, 13, IsNotClose);
    assert StripAt(s, 0) == Some(14);
    assert StripFrom(s, 14) == [];
  }

  lemma {:induction false} NextActionNone(s: string, from: nat)
    requires forall p :: from <= p < |s| ==> !OpensAt(s, p)
    ensures NextAction(s, from) == None
    decreases |s| - from
  {
    if from < |s| {
      NextActionNone(s, from + 1);
    }
  }

  /** The text after the removed marker in the exposure example holds no `[ACTION:`. */
  lemma ExposedRest(s: string)
    requires s == "[ACT[ACTION:x]ION:y]"
    ensures StripFrom(s, 4) == "ION:y]"
  {
    SpanEndIs(s, 12, 13, IsNotClose);
    assert StripAt(s, 4) == Some(14);
    forall p | 14 <= p < |s| ensures !OpensAt(s, p) {
    }
    StripWithoutMarkers(s, 14);
    assert s[14..] == "ION:y]";
  }

  /** Removing a marker can join the text around it into a new marker, which is then shown:
      the single left-to-right pass of `replace` does not make the text marker-free. */
  lemma StrippingCanExposeMarker(s: string)
    requires s == "[ACT[ACTION:x]ION:y]"
    ensures StripMarkers(s) == "[ACTION:y]"
    ensures OpensAt(StripMarkers(s), 0)
  {
    assert s[0..8][4] != MarkerOpen[4];
    assert !OpensAt(s, 0);
    forall p | 1 <= p < 4 ensures !OpensAt(s, p) {
      assert s[p..p + 8][0] != MarkerOpen[0];
    }
    ExposedRest(s);
    assert StripFrom(s, 3) == [s[3]] + StripFrom(s, 4);
    assert StripFrom(s, 2) == [s[2]] + StripFrom(s, 3);
    assert StripFrom(s, 1) == [s[1]] + StripFrom(s, 2);
    assert StripFrom(s, 0) == [s[0]] + StripFrom(s, 1);
    assert StripFrom(s, 0) == "[ACT" + "ION:y]";
  }

  /** The exposed marker is removed by a second pass. */
  lemma SecondPassRemovesIt()
    ensures StripMarkers("[ACTION:y]") == []
  {
    var t := "[ACTION:y]";
    SpanEndIs(t, 8, 9, IsNotClose);
    assert StripAt(t, 0) == Some(10);
  }
}
