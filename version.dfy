/**
 * bump_version: split a dotted version string into integers with String#to_i, add one to
 * the last of them and join them again with dots.
 */
module Version {
  import opened Wrappers
  import opened Text

  /** Ruby raises NoMethodError on `nil + 1` when the split yields no component at all. */
  datatype BumpError = NoLastComponent

  /** The integer components of a version string: `t.split(".").map { |x| x.to_i }`. */
  function Components(t: string): seq<int>
  {
    var parts := Split(t, '.');
    seq(|parts|, i requires 0 <= i < |parts| => ToI(parts[i]))
  }

  /** `elems.join(".")` for integers: each rendered with Integer#to_s. */
  function Render(elems: seq<int>): string
  {
    Join(seq(|elems|, i requires 0 <= i < |elems| => IntToText(elems[i])), '.')
  }

  /** Rendering a list of integers and reading it back gives the same integers. */
  lemma ComponentsOfRender(elems: seq<int>)
    ensures Components(Render(elems)) == elems
  {
    if elems == [] {
      assert Split(Render(elems), '.') == [];
    } else {
      ComponentsOfRenderNonEmpty(elems);
    }
  }

  lemma ComponentsOfRenderNonEmpty(elems: seq<int>)
    requires |elems| >= 1
    ensures Components(Render(elems)) == elems
  {
    var texts := seq(|elems|, i requires 0 <= i < |elems| => IntToText(elems[i]));
    forall i | 0 <= i < |texts|
      ensures '.' !in texts[i] && ToI(texts[i]) == elems[i]
    {
      ToIOfIntToText(elems[i]);
      IntToTextChars(elems[i]);
    }
    FieldsOfJoin(texts, '.');
    assert texts[|texts| - 1] != "";
    assert Split(Render(elems), '.') == texts;
  }

  /** bump_version, as deploy.rb defines it (the script itself never calls it). */
  function BumpVersion(t: string): (r: Result<string, BumpError>)
    ensures r.Failure? <==> Components(t) == []
    ensures r.Success? ==>
      var before, after := Components(t), Components(r.value);
      |after| == |before| &&
      after[|after| - 1] == before[|before| - 1] + 1 &&
      forall i :: 0 <= i < |before| - 1 ==> after[i] == before[i]
  {
    var elems := Components(t);
    if elems == [] then Failure(NoLastComponent)
    else
      var bumped := elems[|elems| - 1 := elems[|elems| - 1] + 1];
      ComponentsOfRender(bumped);
      Success(Render(bumped))
  }
}
