/** The two static lookup tables of `src/utils/constants.js`: remote API
    attribute names and local file names, each mapped to the name shown to
    the user. */
module Constants {

  /** A map that never gives two keys the same value. */
  ghost predicate Injective(m: map<string, string>) {
    forall a, b :: a in m && b in m && a != b ==> m[a] != m[b]
  }

  /** `attributeNames` */
  function AttributeNames(): map<string, string> {
    map[
      "body_draft" := "HTML",
      "code" := "Code",
      "scss_style_draft" := "CSS",
      "sample_data_draft" := "Sample Data",
      "settings_draft" := "Settings"
    ]
  }

  /** `fileToAttributeName` */
  function FileToAttributeName(): map<string, string> {
    map[
      "body.html.liquid" := "HTML",
      "code.liquid" := "Code",
      "styles.scss" := "CSS",
      "sample_data.json" := "Sample Data",
      "settings.json" := "Settings"
    ]
  }

  /** The API attribute table has exactly the five API fields as keys and five distinct display names. */
  lemma AttributeNamesTable()
    ensures AttributeNames().Keys == {"body_draft", "code", "scss_style_draft", "sample_data_draft", "settings_draft"}
    ensures AttributeNames().Values == {"HTML", "Code", "CSS", "Sample Data", "Settings"}
    ensures Injective(AttributeNames())
  {
  }

  /** The file table has exactly the five local file names as keys and the same display names, all distinct. */
  lemma FileToAttributeNameTable()
    ensures FileToAttributeName().Keys == {"body.html.liquid", "code.liquid", "styles.scss", "sample_data.json", "settings.json"}
    ensures FileToAttributeName().Values == AttributeNames().Values
    ensures Injective(FileToAttributeName())
  {
    AttributeNamesTable();
    FileTableValues();
    FileTableInjective();
  }

  /** No two files share a display name. */
  lemma FileTableInjective()
    ensures Injective(FileToAttributeName())
  {
  }

  /** The file table's display names. */
  lemma FileTableValues()
    ensures FileToAttributeName().Values == {"HTML", "Code", "CSS", "Sample Data", "Settings"}
  {
    var m := FileToAttributeName();
    assert m["body.html.liquid"] == "HTML" && m["code.liquid"] == "Code" && m["styles.scss"] == "CSS";
    assert m["sample_data.json"] == "Sample Data" && m["settings.json"] == "Settings";
  }

  /** `${attributeNames[key]}` in a template literal: an unknown key prints as `undefined`. */
  function AttributeDisplayName(key: string): (r: string)
    ensures key in AttributeNames() ==> r == AttributeNames()[key] && r != "undefined"
    ensures key !in AttributeNames() ==> r == "undefined"
  {
    if key in AttributeNames() then AttributeNames()[key] else "undefined"
  }
}
