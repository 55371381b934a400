/** The in-memory contract store (src/store/contractStore.ts): the contracts,
    alerts and chat messages the dashboard shows, and the operations on them.
    The store is one object whose fields its actions replace; `uploadContract`
    derives a new contract from a file's name, size and a draw of random
    values, and puts it in front of the list. */
module ContractStore {
  import opened Text
  import opened Lists
  import opened Domain
  import opened Metadata

  /** What the store reads of a browser `File`: its name and its size in bytes. */
  datatype UploadFile = UploadFile(name: string, size: nat)

  /** The three clock readings `uploadContract` takes, in the order it takes
      them: `Date.now()` for the id, `new Date()` for the upload date, and
      `Date.now()` again for the expiry date. */
  datatype UploadClock = UploadClock(idAt: nat, uploadAt: nat, expiryFrom: nat)

  /** One year, in milliseconds: `365 * 24 * 60 * 60 * 1000`. */
  const YearMs: nat := 365 * 24 * 60 * 60 * 1000

  // ---------------------------------------------------------------------
  // The file-size label: `${(size / 1024 / 1024).toFixed(2)} MB`

  const Mebibyte: nat := 1024 * 1024

  /** `size / 1024 / 1024` is exact in floating point, and `toFixed(2)` picks
      the integer n nearest to 100 times that value, the larger one on a tie. */
  function Hundredths(size: nat): (n: nat)
    ensures (n as real) - 0.5 <= (size as real) * 100.0 / (Mebibyte as real) < (n as real) + 0.5
  {
    var n := (size * 200 + Mebibyte) / (2 * Mebibyte);
    assert n * (2 * Mebibyte) <= size * 200 + Mebibyte < (n + 1) * (2 * Mebibyte);
    HundredthsBounds(size, n);
    n
  }

  lemma HundredthsBounds(size: nat, n: nat)
    requires n * (2 * Mebibyte) <= size * 200 + Mebibyte < (n + 1) * (2 * Mebibyte)
    ensures (n as real) - 0.5 <= (size as real) * 100.0 / (Mebibyte as real) < (n as real) + 0.5
  {
    var m := Mebibyte as real;
    var x := (size as real) * 100.0 / m;
    assert (size as real) * 100.0 == x * m;
    assert (n as real) * 2.0 * m <= (size as real) * 200.0 + m < ((n as real) + 1.0) * 2.0 * m;
    assert ((n as real) - 0.5) * m <= x * m < ((n as real) + 0.5) * m;
  }

  /** Two decimal digits, with a leading zero when needed. */
  function TwoDigits(k: nat): (r: string)
    requires k < 100
    ensures |r| == 2 && AllDigits(r)
    ensures DigitValue(r[0]) * 10 + DigitValue(r[1]) == k
  {
    [DigitChar(k / 10), DigitChar(k % 10)]
  }

  function FileSizeLabel(size: nat): string
  {
    var n := Hundredths(size);
    NatToString(n / 100) + "." + TwoDigits(n % 100) + " MB"
  }

  lemma TwoDigitsFraction(k: nat)
    requires k < 100
    ensures FractionValue(TwoDigits(k)) == (k as real) / 100.0
  {
    var dd := TwoDigits(k);
    assert dd[1..][1..] == [];
    var d0, d1 := DigitValue(dd[0]) as real, DigitValue(dd[1]) as real;
    assert FractionValue(dd[1..]) == d1 / 10.0;
    assert FractionValue(dd) == (d0 + d1 / 10.0) / 10.0;
    assert (k as real) == d0 * 10.0 + d1;
  }

  lemma HundredthsSplit(n: nat)
    ensures ((n / 100) as real) + ((n % 100) as real) / 100.0 == (n as real) / 100.0
  {
    var q, r := n / 100, n % 100;
    assert n == q * 100 + r;
    assert (n as real) == (q as real) * 100.0 + (r as real);
  }

  /** A number written with two decimals reads back as that many hundredths. */
  lemma ParseTwoDecimals(n: nat, rest: string)
    requires rest == [] || !IsDigit(rest[0])
    ensures var p := ParseFloat(NatToString(n / 100) + "." + TwoDigits(n % 100) + rest);
      p.Some? && p.value == (n as real) / 100.0
  {
    ParseDecimal(NatToString(n / 100) + "." + TwoDigits(n % 100) + rest, NatToString(n / 100), TwoDigits(n % 100), rest);
    TwoDecimalsValue(n);
  }

  /** The digits before the point and the two after it denote n / 100. */
  lemma TwoDecimalsValue(n: nat)
    ensures DigitsValue(NatToString(n / 100)) as real + FractionValue(TwoDigits(n % 100)) == (n as real) / 100.0
  {
    NatToStringRoundTrip(n / 100);
    TwoDigitsFraction(n % 100);
    HundredthsSplit(n);
  }

  /** The number shown in the label is the size in MiB to within half a hundredth. */
  lemma FileSizeLabelValue(size: nat)
    ensures ParseFloat(FileSizeLabel(size)).Some?
    ensures var v := ParseFloat(FileSizeLabel(size)).value;
            v - 0.005 <= (size as real) / (Mebibyte as real) < v + 0.005
  {
    var n := Hundredths(size);
    ParseTwoDecimals(n, " MB");
    WithinHalfHundredth(size, n);
  }

  lemma WithinHalfHundredth(size: nat, n: nat)
    requires (n as real) - 0.5 <= (size as real) * 100.0 / (Mebibyte as real) < (n as real) + 0.5
    ensures (n as real) / 100.0 - 0.005 <= (size as real) / (Mebibyte as real) < (n as real) / 100.0 + 0.005
  {
    var x := (size as real) / (Mebibyte as real);
    assert (size as real) * 100.0 / (Mebibyte as real) == x * 100.0;
  }

  /** A size of whole mebibytes shows as that number followed by ".00 MB". */
  lemma FileSizeLabelWhole(k: nat)
    ensures FileSizeLabel(k * Mebibyte) == NatToString(k) + ".00 MB"
  {
    var size := k * Mebibyte;
    assert size * 200 + Mebibyte == (k * 100) * (2 * Mebibyte) + Mebibyte;
    var n := Hundredths(size);
    assert n == k * 100;
    assert n / 100 == k && n % 100 == 0;
  }

  // ---------------------------------------------------------------------
  // The contract an upload creates

  /** The key terms of lines 108-116 and 143-151 for a draw and a document type. */
  function DrawnTerms(draw: TermDraw, documentType: DocumentType): KeyTerms
    requires ValidDraw(draw)
  {
    KeyTerms(
      margin := Some(MarginPool[draw.marginIndex]),
      paymentTerms := Some(PaymentPool[draw.paymentIndex]),
      slaTime := Some(SlaPool[draw.slaIndex]),
      territory := Some(TerritoryPool[draw.territoryIndex]),
      exclusivity := Some(draw.exclusive),
      minimumOrderQuantity := Some(NatToString(draw.orderQuantity) + " units"),
      warrantyPeriod := Some(if documentType == Service then "24 months" else "12 months"))
  }

  /** The record literal of lines 130-153, from the inferred metadata, the
      drawn terms, the risk rating and the clock readings. */
  function ContractRecord(file: UploadFile, meta: FileMetadata, terms: KeyTerms, risk: RiskLevel,
                          clock: UploadClock): Contract
  {
    Contract(
      id := "contract-" + NatToString(clock.idAt),
      fileName := file.name,
      brand := meta.brand,
      series := meta.series,
      model := meta.model,
      version := meta.version,
      uploadDate := clock.uploadAt,
      expiryDate := clock.expiryFrom + YearMs,
      status := Active,
      uploadedBy := "Current User",
      fileSize := FileSizeLabel(file.size),
      documentType := meta.documentType,
      keyTerms := Some(terms),
      riskLevel := Some(risk),
      changes := None)
  }

  /** The contract `uploadContract` builds for `file` from the draw and the clock readings. */
  function NewContract(file: UploadFile, draw: TermDraw, clock: UploadClock): Contract
    requires ValidDraw(draw)
  {
    var meta := MetadataOf(ToLower(file.name));
    var risk := RiskLevelFor(ParseInt(MarginPool[draw.marginIndex]), ParseInt(PaymentPool[draw.paymentIndex]));
    ContractRecord(file, meta, DrawnTerms(draw, meta.documentType), risk, clock)
  }

  /** A new contract keeps the name as uploaded, reads its metadata from the
      lower-cased name, is active, and its id is "contract-" and the first
      clock reading. It expires one year after the third reading, so one
      year after upload plus the time between the second and third
      readings: at least a year when the clock does not go back, exactly a
      year when both readings fall in the same millisecond. */
  lemma NewContractShape(file: UploadFile, draw: TermDraw, clock: UploadClock)
    requires ValidDraw(draw)
    ensures var c := NewContract(file, draw, clock);
            && c.fileName == file.name
            && c.status == Active
            && c.uploadDate == clock.uploadAt
            && c.expiryDate - c.uploadDate == YearMs + (clock.expiryFrom - clock.uploadAt)
            && (clock.uploadAt <= clock.expiryFrom ==> c.expiryDate - c.uploadDate >= YearMs)
            && c.id[..9] == "contract-" && ParseInt(c.id[9..]) == Some(clock.idAt)
            && MetadataOf(ToLower(c.fileName)) == FileMetadata(c.brand, c.series, c.model, c.documentType, c.version)
  {
    var c := NewContract(file, draw, clock);
    assert c.id[9..] == NatToString(clock.idAt) + "";
    ParseIntOfRendered(clock.idAt, "");
  }

  /** The drawn terms: every term is one of its pool's values, the minimum
      order quantity reads back as a number in [50, 250), and the warranty is
      24 months exactly for service agreements. */
  lemma NewContractTerms(file: UploadFile, draw: TermDraw, clock: UploadClock)
    requires ValidDraw(draw)
    ensures var c := NewContract(file, draw, clock);
            && c.keyTerms.Some?
            && var t := c.keyTerms.value;
            && t.margin.Some? && t.margin.value in MarginPool
            && t.paymentTerms.Some? && t.paymentTerms.value in PaymentPool
            && t.slaTime.Some? && t.slaTime.value in SlaPool
            && t.territory.Some? && t.territory.value in TerritoryPool
            && t.exclusivity.Some?
            && t.minimumOrderQuantity.Some?
            && var q := ParseInt(t.minimumOrderQuantity.value);
            && q.Some? && 50 <= q.value < 250
            && (t.warrantyPeriod == Some("24 months") <==> c.documentType == Service)
            && (t.warrantyPeriod == Some("12 months") <==> c.documentType != Service)
  {
    var c := NewContract(file, draw, clock);
    assert c.keyTerms == Some(DrawnTerms(draw, c.documentType));
    DrawnTermsInPools(draw, c.documentType);
  }

  lemma DrawnTermsInPools(draw: TermDraw, documentType: DocumentType)
    requires ValidDraw(draw)
    ensures var t := DrawnTerms(draw, documentType);
            && t.margin.Some? && t.margin.value in MarginPool
            && t.paymentTerms.Some? && t.paymentTerms.value in PaymentPool
            && t.slaTime.Some? && t.slaTime.value in SlaPool
            && t.territory.Some? && t.territory.value in TerritoryPool
            && t.exclusivity.Some?
            && t.minimumOrderQuantity.Some?
            && var q := ParseInt(t.minimumOrderQuantity.value);
            && q.Some? && 50 <= q.value < 250
            && (t.warrantyPeriod == Some("24 months") <==> documentType == Service)
            && (t.warrantyPeriod == Some("12 months") <==> documentType != Service)
  {
    ParseIntOfRendered(draw.orderQuantity, " units");
  }

  /** The risk of a new contract, in terms of the drawn margin and payment period. */
  lemma NewContractRisk(file: UploadFile, draw: TermDraw, clock: UploadClock)
    requires ValidDraw(draw)
    ensures var r := NewContract(file, draw, clock).riskLevel;
            && r.Some?
            && (r.value == Low <==> MarginPercent(draw.marginIndex) >= 12 && PaymentDays(draw.paymentIndex) <= 45)
            && (r.value == High <==> !(r.value == Low) && (MarginPercent(draw.marginIndex) < 10 || PaymentDays(draw.paymentIndex) >= 90))
  {
    MarginPoolValues(draw.marginIndex);
    PaymentPoolValues(draw.paymentIndex);
    RiskClassification(MarginPercent(draw.marginIndex), PaymentDays(draw.paymentIndex));
  }

  /** The brand, series and model tests of lines 26-92, applied step by step
      as the code does: initial values, then the brand chain with each
      brand's series and model tests inside it. */
  method DetectBrand(fileName: string) returns (brand: string, series: string, model: string)
    ensures var family := FamilyOf(fileName);
            brand == BrandName(family, fileName) && series == SeriesOf(family, fileName) && model == ModelOf(family, fileName)
  {
    FamilyChain(fileName);
    brand := "Unknown";
    series := "Unknown";
    model := "Standard";

    if Contains(fileName, "iphone") {
      SeriesChain(AppleFamily, fileName);
      ModelChain(AppleFamily, fileName);
      brand := "Apple";
      var iphoneMatch := Search(fileName, NumberAfter("iphone", true));
      if iphoneMatch.Some? {
        series := "iPhone " + iphoneMatch.value;
      }
      if Contains(fileName, "pro max") {
        model := "Pro Max";
      } else if Contains(fileName, "pro") {
        model := "Pro";
      } else if Contains(fileName, "plus") {
        model := "Plus";
      }
    } else if Contains(fileName, "realme") {
      SeriesChain(RealmeFamily, fileName);
      ModelChain(RealmeFamily, fileName);
      brand := "Realme";
      var realmeMatch := Search(fileName, NumberAfter("realme", true));
      if realmeMatch.Some? {
        series := "Realme " + realmeMatch.value;
      }
      if Contains(fileName, "pro") {
        model := "Pro+";
      }
    } else if Contains(fileName, "samsung") || Contains(fileName, "galaxy") {
      SeriesChain(SamsungFamily, fileName);
      ModelChain(SamsungFamily, fileName);
      brand := "Samsung";
      if Contains(fileName, "s2") {
        var sMatch := Search(fileName, NumberAfter("s", false));
        if sMatch.Some? {
          series := "Galaxy S" + sMatch.value;
        }
      } else if Contains(fileName, "note") {
        series := "Galaxy Note";
      } else {
        series := "Galaxy";
      }
      if Contains(fileName, "ultra") {
        model := "Ultra";
      } else if Contains(fileName, "plus") {
        model := "Plus";
      }
    } else if Contains(fileName, "oneplus") {
      SeriesChain(OnePlusFamily, fileName);
      ModelChain(OnePlusFamily, fileName);
      brand := "OnePlus";
      var oneplusMatch := Search(fileName, NumberAfter("oneplus", true));
      if oneplusMatch.Some? {
        series := "OnePlus " + oneplusMatch.value;
      }
      if Contains(fileName, "pro") {
        model := "Pro";
      }
    } else if Contains(fileName, "xiaomi") || Contains(fileName, "redmi") {
      SeriesChain(XiaomiFamily, fileName);
      ModelChain(XiaomiFamily, fileName);
      brand := if Contains(fileName, "redmi") then "Redmi" else "Xiaomi";
      if Contains(fileName, "note") {
        series := "Note Series";
      } else if Contains(fileName, "mi") {
        var miMatch := Search(fileName, NumberAfter("mi", true));
        if miMatch.Some? {
          series := "Mi " + miMatch.value;
        }
      }
    } else {
      SeriesChain(UnknownFamily, fileName);
      ModelChain(UnknownFamily, fileName);
    }
  }

  /** The document-type tests of lines 29 and 95-101, step by step. */
  method DetectDocumentType(fileName: string) returns (documentType: DocumentType)
    ensures documentType == DocumentTypeOf(fileName)
  {
    DocumentChain(fileName);
    documentType := Commission;
    if Contains(fileName, "commission") {
      documentType := Commission;
    } else if Contains(fileName, "service") {
      documentType := Service;
    } else if Contains(fileName, "license") || Contains(fileName, "distribution") {
      documentType := License;
    }
  }

  /** Lines 25-105: everything the upload infers from the file name, which
      it lower-cases first. */
  method DetectMetadata(name: string) returns (meta: FileMetadata)
    ensures meta == MetadataOf(ToLower(name))
  {
    var fileName := ToLower(name);
    var brand, series, model := DetectBrand(fileName);
    var documentType := DetectDocumentType(fileName);
    var yearMatch := Search(fileName, YearToken);
    var version := if yearMatch.Some? then yearMatch.value + ".1" else "2025.1";
    meta := FileMetadata(brand, series, model, documentType, version);
  }

  // ---------------------------------------------------------------------
  // Alerts and search

  /** `alerts.map(a => a.id === alertId ? { ...a, isRead: true } : a)`. */
  function MarkedRead(alerts: seq<Alert>, alertId: string): (r: seq<Alert>)
    ensures |r| == |alerts|
    ensures forall i :: 0 <= i < |r| ==> r[i].(isRead := alerts[i].isRead) == alerts[i]
    ensures forall i :: 0 <= i < |r| ==> (r[i].isRead <==> alerts[i].isRead || alerts[i].id == alertId)
  {
    Map(alerts, (a: Alert) => if a.id == alertId then a.(isRead := true) else a)
  }

  /** Marking twice is marking once. */
  lemma MarkedReadIdempotent(alerts: seq<Alert>, alertId: string)
    ensures MarkedRead(MarkedRead(alerts, alertId), alertId) == MarkedRead(alerts, alertId)
  {
    var once := MarkedRead(alerts, alertId);
    var twice := MarkedRead(once, alertId);
    assert forall i :: 0 <= i < |twice| ==> twice[i] == once[i];
  }

  /** An id no alert carries leaves the alerts as they were. */
  lemma MarkedReadUnknown(alerts: seq<Alert>, alertId: string)
    requires forall i :: 0 <= i < |alerts| ==> alerts[i].id != alertId
    ensures MarkedRead(alerts, alertId) == alerts
  {
    var r := MarkedRead(alerts, alertId);
    assert forall i :: 0 <= i < |r| ==> r[i] == alerts[i];
  }

  /** Marking two alerts commutes. */
  lemma MarkedReadCommutes(alerts: seq<Alert>, id1: string, id2: string)
    ensures MarkedRead(MarkedRead(alerts, id1), id2) == MarkedRead(MarkedRead(alerts, id2), id1)
  {
    var a := MarkedRead(MarkedRead(alerts, id1), id2);
    var b := MarkedRead(MarkedRead(alerts, id2), id1);
    assert forall i :: 0 <= i < |a| ==> a[i] == b[i];
  }

  /** The search test of lines 181-186 for an already lower-cased query. */
  predicate MatchesQuery(c: Contract, lowerQuery: string)
  {
    || Contains(ToLower(c.fileName), lowerQuery)
    || Contains(ToLower(c.brand), lowerQuery)
    || Contains(ToLower(c.series), lowerQuery)
    || Contains(ToLower(c.model), lowerQuery)
  }

  /** The risk rating of `uploadContract` (lines 119-127): low for a high
      margin with short payment, high for a thin margin or long payment,
      medium otherwise. */
  method AssessRisk(margin: string, payment: string) returns (riskLevel: RiskLevel)
    ensures riskLevel == RiskLevelFor(ParseInt(margin), ParseInt(payment))
  {
    riskLevel := Medium;
    var marginValue := ParseInt(margin);
    var paymentDays := ParseInt(payment);
    // A NaN from parseInt fails every comparison.
    if marginValue.Some? && paymentDays.Some? && marginValue.value >= 12 && paymentDays.value <= 45 {
      riskLevel := Low;
    } else if (marginValue.Some? && marginValue.value < 10) || (paymentDays.Some? && paymentDays.value >= 90) {
      riskLevel := High;
    }
  }

  // ---------------------------------------------------------------------
  // The store

  class Store {
    var contracts: seq<Contract>
    var alerts: seq<Alert>
    var chatMessages: seq<ChatMessage>
    var selectedContract: Option<Contract>

    /** The store starts from the seed contracts and alerts, with no chat
        messages and nothing selected. */
    constructor(seedContracts: seq<Contract>, seedAlerts: seq<Alert>)
      ensures contracts == seedContracts && alerts == seedAlerts
      ensures chatMessages == [] && selectedContract == None
    {
      contracts := seedContracts;
      alerts := seedAlerts;
      chatMessages := [];
      selectedContract := None;
    }

    /** `uploadContract`: infers the metadata, draws the key terms, rates the
        risk, and puts the new contract in front of the others. */
    method UploadContract(file: UploadFile, draw: TermDraw, clock: UploadClock)
      requires ValidDraw(draw)
      modifies this
      ensures contracts == [NewContract(file, draw, clock)] + old(contracts)
      ensures alerts == old(alerts) && chatMessages == old(chatMessages)
      ensures selectedContract == old(selectedContract)
    {
      var meta := DetectMetadata(file.name);

      var randomMargin := MarginPool[draw.marginIndex];
      var randomPayment := PaymentPool[draw.paymentIndex];
      var randomSla := SlaPool[draw.slaIndex];
      var randomTerritory := TerritoryPool[draw.territoryIndex];

      var riskLevel := AssessRisk(randomMargin, randomPayment);

      var terms := KeyTerms(
        margin := Some(randomMargin),
        paymentTerms := Some(randomPayment),
        slaTime := Some(randomSla),
        territory := Some(randomTerritory),
        exclusivity := Some(draw.exclusive),
        minimumOrderQuantity := Some(NatToString(draw.orderQuantity) + " units"),
        warrantyPeriod := Some(if meta.documentType == Service then "24 months" else "12 months"));
      var newContract := ContractRecord(file, meta, terms, riskLevel, clock);
      assert terms == DrawnTerms(draw, meta.documentType);
      contracts := [newContract] + contracts;
    }

    /** `selectContract`: replaces the selection, `None` clearing it. */
    method SelectContract(contract: Option<Contract>)
      modifies this
      ensures selectedContract == contract
      ensures contracts == old(contracts) && alerts == old(alerts) && chatMessages == old(chatMessages)
    {
      selectedContract := contract;
    }

    /** `markAlertAsRead`: the alerts with that id become read, nothing else changes. */
    method MarkAlertAsRead(alertId: string)
      modifies this
      ensures alerts == MarkedRead(old(alerts), alertId)
      ensures contracts == old(contracts) && chatMessages == old(chatMessages)
      ensures selectedContract == old(selectedContract)
    {
      alerts := MarkedRead(alerts, alertId);
    }

    /** `addChatMessage`: appends the message to the conversation. */
    method AddChatMessage(message: ChatMessage)
      modifies this
      ensures chatMessages == old(chatMessages) + [message]
      ensures contracts == old(contracts) && alerts == old(alerts)
      ensures selectedContract == old(selectedContract)
    {
      chatMessages := chatMessages + [message];
    }

    /** `searchContracts`: the contracts, in store order, whose file name,
        brand, series or model includes the query, ignoring case. */
    function SearchContracts(query: string): (r: seq<Contract>)
      reads this
      ensures IsSublist(r, contracts)
      ensures forall i :: 0 <= i < |contracts| ==> (contracts[i] in r <==> MatchesQuery(contracts[i], ToLower(query)))
      ensures forall i :: 0 <= i < |r| ==> r[i] in contracts && MatchesQuery(r[i], ToLower(query))
      ensures forall c :: multiset(r)[c] == if MatchesQuery(c, ToLower(query)) then multiset(contracts)[c] else 0
    {
      var lowerQuery := ToLower(query);
      var keep := (c: Contract) => MatchesQuery(c, lowerQuery);
      FilterIsSublist(contracts, keep);
      FilterCounts(contracts, keep);
      Filter(contracts, keep)
    }
  }

  /** An empty query finds every contract. */
  lemma SearchEmptyQuery(store: Store)
    ensures store.SearchContracts("") == store.contracts
  {
    forall c: Contract {
      ContainsEmpty(ToLower(c.fileName));
    }
    FilterAll(store.contracts, (c: Contract) => MatchesQuery(c, ToLower("")));
  }

  /** The search ignores case: a query and its lower-cased form find the same contracts. */
  lemma SearchIgnoresCase(store: Store, query: string)
    ensures store.SearchContracts(ToLower(query)) == store.SearchContracts(query)
  {
    ToLowerIdempotent(query);
  }

  /** A longer query narrows the search: whatever a query finds, any query it
      includes also finds. */
  lemma SearchNarrows(store: Store, query: string, longer: string)
    requires Contains(ToLower(longer), ToLower(query))
    ensures forall c :: c in store.SearchContracts(longer) ==> c in store.SearchContracts(query)
  {
    var q, l := ToLower(query), ToLower(longer);
    forall c | c in store.SearchContracts(longer)
      ensures c in store.SearchContracts(query)
    {
      var r := store.SearchContracts(longer);
      var k :| 0 <= k < |r| && r[k] == c;
      var i :| 0 <= i < |store.contracts| && store.contracts[i] == c;
      if Contains(ToLower(c.fileName), l) { ContainsTransitive(ToLower(c.fileName), l, q); }
      if Contains(ToLower(c.brand), l) { ContainsTransitive(ToLower(c.brand), l, q); }
      if Contains(ToLower(c.series), l) { ContainsTransitive(ToLower(c.series), l, q); }
      if Contains(ToLower(c.model), l) { ContainsTransitive(ToLower(c.model), l, q); }
    }
  }
}
