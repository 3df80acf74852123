/** The deterministic stand-in for a vendor search: three vendors per issue category,
    with ratings, distances, prices and slots that depend only on the vendor's position. */
module Vendors {
  import opened Types
  import Text

  datatype DbEntry = DbEntry(names: seq<string>, prefix: string)

  const VENDOR_DB: map<string, DbEntry> := map[
    "plumbing" := DbEntry(["Mike's Plumbing", "Fast Fix Plumbing", "Pro Pipe Services"], "Plumber"),
    "electrical" := DbEntry(["Spark Electric Co", "BrightWire Electrical", "PowerUp Electric"], "Electrician"),
    "hvac" := DbEntry(["CoolBreeze HVAC", "AirFlow Solutions", "TempRight Heating & Air"], "HVAC Tech"),
    "appliance" := DbEntry(["AppliancePro Repair", "FixIt Appliances", "HomeServe Appliance"], "Appliance Tech"),
    "structural" := DbEntry(["SolidWall Contractors", "FoundationFirst", "BuildRight Repairs"], "Contractor"),
    "pest" := DbEntry(["BugBusters Pest Control", "SafeHome Exterminators", "GreenShield Pest"], "Pest Control"),
    "other" := DbEntry(["HandyPro Services", "AllFix Maintenance", "QuickRepair Co"], "Handyman")
  ]

  const REVIEW_COUNTS: seq<int> := [127, 89, 44]

  const SLOT_TABLE: seq<seq<string>> := [
    ["Tomorrow 9–11am", "Tomorrow 2–4pm", "Wednesday 10am–12pm"],
    ["Tomorrow 1–3pm", "Thursday 9–11am"],
    ["Wednesday 2–4pm", "Friday 9–11am"]
  ]

  /** The table has one entry per issue category, no other key, and exactly three names in
      each entry, so the per-position tables are never indexed out of range. */
  lemma VendorDbShape()
    ensures forall key :: key in VENDOR_DB <==> ParseIssueType(key).Some?
    ensures forall key :: key in VENDOR_DB ==> |VENDOR_DB[key].names| == 3
    ensures |REVIEW_COUNTS| == 3 && |SLOT_TABLE| == 3
  {
    forall key ensures key in VENDOR_DB <==> ParseIssueType(key).Some? {
      if ParseIssueType(key).Some? {
        assert key == ParseIssueType(key).value.Name();
      }
    }
  }

  /** `VENDOR_DB[issueType] || VENDOR_DB.other`. */
  function EntryFor(issueType: string): (e: DbEntry)
    ensures |e.names| == 3
  {
    VendorDbShape();
    if issueType in VENDOR_DB then VENDOR_DB[issueType] else VENDOR_DB["other"]
  }

  /** The vendor at position `i` with the given name. */
  function MakeVendor(name: string, i: nat): Vendor
    requires i < 3
  {
    Vendor(
      "v" + Text.NatToString(i + 1),
      name,
      48 - 3 * i,
      REVIEW_COUNTS[i],
      8 + 6 * i,
      120 + i * 30,
      200 + i * 50,
      SLOT_TABLE[i],
      "(555) 010-" + Text.PadStart(Text.NatToString(i + 1), 4, '0'))
  }

  /** The vendors offered for an issue category; the zip code is ignored. */
  function GetMockVendors(issueType: string, zip: string): (r: seq<Vendor>)
    ensures |r| == 3
    ensures forall i :: 0 <= i < 3 ==> r[i].name == EntryFor(issueType).names[i]
  {
    var names := EntryFor(issueType).names;
    seq(|names|, i requires 0 <= i < |names| => MakeVendor(names[i], i))
  }

  /** A category that is not in the table gets the handyman entry. */
  lemma UnknownIssueTypeFallsBack(issueType: string, zip: string)
    requires ParseIssueType(issueType).None?
    ensures GetMockVendors(issueType, zip) == GetMockVendors("other", zip)
    ensures GetMockVendors(issueType, zip)[0].name == "HandyPro Services"
  {
    VendorDbShape();
  }

  /** The three vendors are v1, v2, v3 with phones (555) 010-0001 to 0003; each has an ordered, non-empty price range
      (120+30i < 200+50i), a rating of 4.8-0.3i within 0 to 5, a distance of 0.8+0.6i
      miles and at least one slot; ratings fall and distances grow along the list. */
  lemma MockVendorsFacts(issueType: string, zip: string)
    ensures var r := GetMockVendors(issueType, zip);
      && r[0].id == "v1" && r[1].id == "v2" && r[2].id == "v3"
      && r[0].phone == "(555) 010-0001" && r[1].phone == "(555) 010-0002" && r[2].phone == "(555) 010-0003"
      && r[0].reviewCount == 127 && r[1].reviewCount == 89 && r[2].reviewCount == 44
      && (forall i :: 0 <= i < 3 ==>
            && r[i].estimatedCostLow == 120 + 30 * i
            && r[i].estimatedCostHigh == 200 + 50 * i
            && r[i].estimatedCostLow < r[i].estimatedCostHigh
            && r[i].ratingTenths == 48 - 3 * i
            && 0 <= r[i].ratingTenths <= 50
            && r[i].distanceTenths == 8 + 6 * i
            && |r[i].availableSlots| > 0)
      && (forall i, j :: 0 <= i < j < 3 ==>
            r[i].ratingTenths > r[j].ratingTenths && r[i].distanceTenths < r[j].distanceTenths)
  {
    var r := GetMockVendors(issueType, zip);
    assert Text.NatToString(1) == "1" && Text.NatToString(2) == "2" && Text.NatToString(3) == "3";
  }

  /** The zip code has no influence on the result. */
  lemma ZipIgnored(issueType: string, zip1: string, zip2: string)
    ensures GetMockVendors(issueType, zip1) == GetMockVendors(issueType, zip2)
  {
  }
}
