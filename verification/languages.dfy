/** The language tables: the home screen's picker offers a list of
    (label, tag) entries, and the camera screen shows the label that belongs
    to the tag it was opened with. */
module Languages {
  import opened Wrappers

  datatype LanguageEntry = LanguageEntry(display: string, value: string)

  /** The camera screen's table, in the order the screen lists them. */
  const CameraLanguages: seq<LanguageEntry> := [
    LanguageEntry("Select a language", ""),
    LanguageEntry("Arabic", "ar-SA"),
    LanguageEntry("Chinese (Mandarin)", "cmn-Hans-CN"),
    LanguageEntry("English (Australia)", "en-AU"),
    LanguageEntry("English (Canada)", "en-CA"),
    LanguageEntry("English (UK)", "en-GB"),
    LanguageEntry("English (US)", "en-US"),
    LanguageEntry("French (Canada)", "fr-CA"),
    LanguageEntry("French (France)", "fr-FR"),
    LanguageEntry("German", "de-DE"),
    LanguageEntry("Hindi", "hi-IN"),
    LanguageEntry("Italian", "it-IT"),
    LanguageEntry("Japanese", "ja-JP"),
    LanguageEntry("Korean", "ko-KR"),
    LanguageEntry("Portuguese (Brazil)", "pt-BR"),
    LanguageEntry("Portuguese (Portugal)", "pt-PT"),
    LanguageEntry("Russian", "ru-RU"),
    LanguageEntry("Spanish (Latin America)", "es-MX"),
    LanguageEntry("Spanish (Spain)", "es-ES")
  ]

  /** The items of the home screen's language picker, in the order the
      screen lists them. */
  const PickerLanguages: seq<LanguageEntry> := [
    LanguageEntry("Select a language", ""),
    LanguageEntry("Arabic", "ar-SA"),
    LanguageEntry("Chinese (Mandarin)", "cmn-Hans-CN"),
    LanguageEntry("English (Australia)", "en-AU"),
    LanguageEntry("English (Canada)", "en-CA"),
    LanguageEntry("English (UK)", "en-GB"),
    LanguageEntry("English (US)", "en-US"),
    LanguageEntry("French (Canada)", "fr-CA"),
    LanguageEntry("French (France)", "fr-FR"),
    LanguageEntry("German", "de-DE"),
    LanguageEntry("Hindi", "hi-IN"),
    LanguageEntry("Italian", "it-IT"),
    LanguageEntry("Japanese", "ja-JP"),
    LanguageEntry("Korean", "ko-KR"),
    LanguageEntry("Portuguese (Brazil)", "pt-BR"),
    LanguageEntry("Portuguese (Portugal)", "pt-PT"),
    LanguageEntry("Russian", "ru-RU"),
    LanguageEntry("Spanish (Latin America)", "es-MX"),
    LanguageEntry("Spanish (Spain)", "es-ES")
  ]

  /** `table.find(f => f.value === tag).label`: the label of the first
      entry whose tag equals `tag`, or None when no entry has it (where the
      screen itself throws, reading `.label` of `undefined`). */
  function FindLabel(table: seq<LanguageEntry>, tag: string): (r: Option<string>)
    ensures r.None? <==> forall i :: 0 <= i < |table| ==> table[i].value != tag
    ensures r.Some? ==> exists i :: 0 <= i < |table| && table[i].value == tag
                          && table[i].display == r.value
                          && forall j :: 0 <= j < i ==> table[j].value != tag
  {
    if |table| == 0 then None
    else if table[0].value == tag then Some(table[0].display)
    else
      var rest := FindLabel(table[1..], tag);
      assert forall i :: 1 <= i < |table| ==> table[i] == table[1..][i - 1];
      rest
  }

  /** The label the camera screen shows for the tag it was opened with. */
  function LanguageLabel(tag: string): (r: Option<string>)
    ensures r.None? <==> forall i :: 0 <= i < |CameraLanguages| ==> CameraLanguages[i].value != tag
    ensures r.Some? ==> exists i :: 0 <= i < |CameraLanguages| && CameraLanguages[i].value == tag
                          && CameraLanguages[i].display == r.value
  {
    FindLabel(CameraLanguages, tag)
  }

  /** No two entries of a table share a tag. */
  ghost predicate DistinctTags(table: seq<LanguageEntry>) {
    forall i, j :: 0 <= i < j < |table| ==> table[i].value != table[j].value
  }

  /** In a table without repeated tags, looking up an entry's tag gives
      back that entry's label. */
  lemma FindLabelOfEntry(table: seq<LanguageEntry>, k: nat)
    requires DistinctTags(table)
    requires k < |table|
    ensures FindLabel(table, table[k].value) == Some(table[k].display)
  {
  }

  lemma CameraTagsDistinct()
    ensures DistinctTags(CameraLanguages)
  {
    forall i | 0 <= i < |CameraLanguages|
      ensures forall j :: i < j < |CameraLanguages| ==> CameraLanguages[i].value != CameraLanguages[j].value
    {
    }
  }

  /** Every tag the picker can deliver has a label on the camera screen, and
      it is the same label the picker showed. */
  lemma PickerTagsHaveLabels(k: nat)
    requires k < |PickerLanguages|
    ensures LanguageLabel(PickerLanguages[k].value) == Some(PickerLanguages[k].display)
  {
    CameraTagsDistinct();
    assert PickerLanguages == CameraLanguages;
    FindLabelOfEntry(CameraLanguages, k);
  }

  /** A tag missing from the table, such as an Indian English tag the picker
      never offers, has no label. */
  lemma UnlistedTagHasNoLabel()
    ensures LanguageLabel("en-IN") == None
  {
    assert forall i :: 0 <= i < |CameraLanguages| ==> CameraLanguages[i].value != "en-IN";
  }
}
