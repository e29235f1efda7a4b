/** Reference data shared by the rules, the warehouse seeds and the quality suites. */
module Catalog {
  const PROVINCES: seq<string> :=
    ["Eastern Cape", "Free State", "Gauteng", "KwaZulu-Natal", "Limpopo", "Mpumalanga",
     "Northern Cape", "North West", "Western Cape"]

  const PLANS: seq<string> := ["Prepaid", "Contract", "TopUp"]

  const PAYMENT_METHODS: seq<string> := ["Voucher", "Card", "EFT", "USSD"]

  const TECHNOLOGIES: seq<string> := ["3G", "LTE", "5G"]

  const TOWER_STATUSES: seq<string> := ["HEALTHY", "DEGRADED", "DOWN"]

  const TOWER_IDS: seq<string> :=
    ["CPT-CBD-001", "CPT-BLV-003", "CPT-CC-002", "CPT-STB-004", "JHB-SDT-001", "JHB-CBD-002",
     "JHB-SWT-003", "PTA-CBD-001", "DBN-CBD-001", "DBN-UMH-002", "PMB-CBD-001", "GQB-CBD-001",
     "EL-CBD-001", "BFN-CBD-001", "PLK-CBD-001", "NLP-CBD-001", "KIM-CBD-001", "RTB-CBD-001"]

  const BUNDLE_PRICES: map<string, real> :=
    map["DATA_1GB" := 99.0, "DATA_5GB" := 199.0, "DATA_20GB" := 399.0,
        "VOICE_100MIN" := 79.0, "VOICE_300MIN" := 169.0, "SMS_500" := 49.0,
        "COMBO_STARTER" := 149.0, "COMBO_POWER" := 299.0]

  /** Is the text one of the listed ones? */
  predicate OneOf(s: string, allowed: seq<string>) {
    exists i | 0 <= i < |allowed| :: allowed[i] == s
  }
}
