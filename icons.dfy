/** The category icons of the catalog view (`icons` and `get_category_icon`). */
module Icons {

  /** The icon shown for a category the table does not list. */
  const DefaultIcon: string := "\U{1F6E0}\U{FE0F}"

  const IconTable: map<string, string> := map[
    "Training" := "\U{1F4DA}",
    "Documentation / Evidence Capture" := "\U{1F4D1}",
    "OpSec" := "\U{1F512}",
    "Threat Intelligence" := "\U{1F575}\U{FE0F}\U{200D}\U{2642}\U{FE0F}",
    "Exploits & Advisories" := "\U{26A0}\U{FE0F}",
    "Malicious File Analysis" := "\U{1F6E1}\U{FE0F}",
    "AI Tools" := "\U{1F916}",
    "Tools" := "\U{1F6E0}\U{FE0F}",
    "Encoding / Decoding" := "\U{1F510}",
    "Classifieds" := "\U{1F4E2}",
    "Digital Currency" := "\U{1F4B8}",
    "Dark Web" := "\U{1F311}",
    "Terrorism" := "\U{1F6A8}",
    "Mobile Emulation" := "\U{1F4F1}",
    "Metadata" := "\U{1F50D}",
    "Language Translation" := "\U{1F310}",
    "Archives" := "\U{1F4E6}",
    "Forums / Blogs / IRC" := "\U{1F4AC}",
    "Search Engines" := "\U{1F50E}",
    "Geolocation Tools / Maps" := "\U{1F4CD}",
    "Transportation" := "\U{1F697}",
    "Business Records" := "\U{1F3E2}",
    "Public Records" := "\U{1F4DC}",
    "Telephone Numbers" := "\U{1F4DE}",
    "Dating" := "\U{2764}\U{FE0F}",
    "People Search Engines" := "\U{1F465}",
    "Instant Messaging" := "\U{1F4AC}",
    "Social Networks" := "\U{1F310}",
    "Images / Videos / Docs" := "\U{1F5BC}\U{FE0F}",
    "IP & MAC Address" := "\U{1F310}",
    "Domain Name" := "\U{1F30D}",
    "Email Address" := "\U{1F4E7}",
    "Username" := "\U{1F464}"
  ]

  /** `icons.get(category_name, default)`. */
  function CategoryIcon(name: string): (icon: string)
    ensures name in IconTable ==> icon == IconTable[name]
    ensures name !in IconTable ==> icon == DefaultIcon
    ensures icon != ""
  {
    if name in IconTable then IconTable[name] else DefaultIcon
  }

  /** The default icon is shown exactly for unlisted categories and for "Tools",
      the one listed category whose icon is the default. */
  lemma DefaultIconExactly(name: string)
    ensures CategoryIcon(name) == DefaultIcon <==> name !in IconTable || name == "Tools"
  {
    if name in IconTable && name != "Tools" {
      assert IconTable[name] != DefaultIcon;
    }
  }
}
