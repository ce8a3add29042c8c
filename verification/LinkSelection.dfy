/** Selecting the first link of each normal form, for any assignment of normal forms to links. */
module LinkSelection {
  import opened Common

  datatype SelectedUrl = SelectedUrl(original: string, normalized: string)

  /** The first position, in input order, with its normal form. */
  predicate IsFirst(forms: seq<Option<string>>, i: int)
  {
    0 <= i < |forms| && forms[i].Some? && forall j | 0 <= j < i :: forms[j] != forms[i]
  }

  function FirstsOf(urls: seq<string>, forms: seq<Option<string>>, n: nat): seq<SelectedUrl>
    requires n <= |urls| == |forms|
  {
    if n == 0 then []
    else FirstsOf(urls, forms, n - 1) + if IsFirst(forms, n - 1) then [SelectedUrl(urls[n - 1], forms[n - 1].value)] else []
  }

  /** The normal forms met among the first `n` links. */
  function Seen(forms: seq<Option<string>>, n: nat): set<string>
    requires n <= |forms|
  {
    if n == 0 then {} else Seen(forms, n - 1) + if forms[n - 1].Some? then {forms[n - 1].value} else {}
  }

  lemma {:induction false} SeenExactly(forms: seq<Option<string>>, n: nat, u: string)
    requires n <= |forms|
    ensures u in Seen(forms, n) <==> exists i :: 0 <= i < n && forms[i] == Some(u)
    decreases n
  {
    if n > 0 {
      SeenExactly(forms, n - 1, u);
    }
  }

  /** A link is a first exactly when its normal form has not been met before. */
  lemma FirstIsUnseen(forms: seq<Option<string>>, n: nat)
    requires n < |forms|
    ensures IsFirst(forms, n) <==> forms[n].Some? && forms[n].value !in Seen(forms, n)
  {
    if forms[n].Some? {
      SeenExactly(forms, n, forms[n].value);
    }
  }

  ghost predicate Selects(selected: seq<SelectedUrl>, u: string) { exists k :: 0 <= k < |selected| && selected[k].normalized == u }

  lemma SelectsAppend(selected: seq<SelectedUrl>, next: SelectedUrl, u: string)
    ensures Selects(selected + [next], u) <==> Selects(selected, u) || u == next.normalized
  {
    var more := selected + [next];
    assert more[|selected|] == next;
    if Selects(selected, u) {
      var k :| 0 <= k < |selected| && selected[k].normalized == u;
      assert more[k].normalized == u;
    }
    if Selects(more, u) && u != next.normalized {
      var k :| 0 <= k < |more| && more[k].normalized == u;
      assert selected[k].normalized == u;
    }
  }

  /** The selection has each normal form that occurs, and no form twice. */
  lemma {:induction false} FirstsAreTheForms(urls: seq<string>, forms: seq<Option<string>>, n: nat)
    requires n <= |urls| == |forms|
    ensures forall u :: Selects(FirstsOf(urls, forms, n), u) <==> u in Seen(forms, n)
    ensures forall i, j | 0 <= i < j < |FirstsOf(urls, forms, n)| ::
              FirstsOf(urls, forms, n)[i].normalized != FirstsOf(urls, forms, n)[j].normalized
    decreases n
  {
    if n > 0 {
      var before := FirstsOf(urls, forms, n - 1);
      FirstsAreTheForms(urls, forms, n - 1);
      FirstIsUnseen(forms, n - 1);
      if IsFirst(forms, n - 1) {
        var next := SelectedUrl(urls[n - 1], forms[n - 1].value);
        assert FirstsOf(urls, forms, n) == before + [next];
        forall u ensures Selects(before + [next], u) <==> Selects(before, u) || u == next.normalized {
          SelectsAppend(before, next, u);
        }
        forall i | 0 <= i < |before| ensures before[i].normalized != next.normalized {
          assert Selects(before, before[i].normalized);
        }
      } else {
        assert FirstsOf(urls, forms, n) == before;
      }
    }
  }
}
