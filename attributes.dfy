/** The defaults `perform` fills into the attribute hash before dispatch
    (lines 48-49 of lib/bulk_ops/work_job.rb). */
module AttributeDefaults {
  import opened RubyValues

  const UNTITLED := List(["Untitled"])

  /** The hash after `attributes['visibility'] = visibility if
      visibility.present?` and `attributes['title'] = ['Untitled'] if
      attributes['title'].blank?`. */
  function DefaultAttributes(attrs: map<string, Value>, visibility: Value): (r: map<string, Value>)
    ensures "title" in r
    ensures Blank(Get(attrs, "title")) ==> r["title"] == UNTITLED
    ensures !Blank(Get(attrs, "title")) ==> r["title"] == attrs["title"]
    ensures Present(visibility) ==> "visibility" in r && r["visibility"] == visibility
    ensures !Present(visibility) ==>
              ("visibility" in r <==> "visibility" in attrs)
              && ("visibility" in attrs ==> r["visibility"] == attrs["visibility"])
    ensures forall k :: k != "title" && k != "visibility" ==>
              (k in r <==> k in attrs) && (k in attrs ==> r[k] == attrs[k])
  {
    var withVisibility := if Present(visibility) then attrs["visibility" := visibility] else attrs;
    if Blank(Get(withVisibility, "title")) then withVisibility["title" := UNTITLED] else withVisibility
  }

  /** Filling the defaults a second time changes nothing. */
  lemma DefaultAttributesIdempotent(attrs: map<string, Value>, visibility: Value)
    ensures DefaultAttributes(DefaultAttributes(attrs, visibility), visibility)
            == DefaultAttributes(attrs, visibility)
  {
    var once := DefaultAttributes(attrs, visibility);
    var twice := DefaultAttributes(once, visibility);
    assert !Blank(UNTITLED);
    assert twice.Keys == once.Keys;
    forall k | k in once
      ensures twice[k] == once[k]
    {
    }
  }

  /** Every hash, whatever it holds, leaves the preamble with a present title. */
  lemma DefaultTitleIsPresent(attrs: map<string, Value>, visibility: Value)
    ensures Present(DefaultAttributes(attrs, visibility)["title"])
  {
    assert !Blank(UNTITLED);
  }
}
