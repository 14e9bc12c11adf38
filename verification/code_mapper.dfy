/**
 * The renderer's code lookup table (src/renderer/mapper/CodeMapper.ts): a list
 * of main codes, each with a list of numbered sub-codes, and the lookups the
 * screens use to turn a (main code, sub-code number) pair into a name.
 *
 * The lookups read the table the module holds; here it is passed to them as a
 * value. Values are immutable, so the deep copies the lookups return cannot
 * alias the table, and a caller editing a result cannot change it.
 */
module CodeMapper {
  import opened Wrappers

  datatype CodeValue = CodeValue(codeSeq: int, name: string)

  datatype CodeMapping = CodeMapping(code: string, name: string, subCodeList: seq<CodeValue>)

  /** The table that loadCodeMapping installs. */
  function InstalledCodes(): seq<CodeMapping> {
    [
      CodeMapping("KIND_CODE", "자산유형",
        [CodeValue(1, "신용카드"), CodeValue(2, "체크카드"), CodeValue(3, "은행통장")]),
      CodeMapping("ATTR_SPENDING", "지출속성",
        [CodeValue(1, "단순 지출"), CodeValue(2, "고정 지출")]),
      CodeMapping("ATTR_TRANSFER", "이체속성",
        [CodeValue(1, "단순 이체"), CodeValue(2, "투자 이체"), CodeValue(3, "부채 이체")]),
      CodeMapping("ATTR_INCOME", "수입속성",
        [CodeValue(1, "단순 수입"), CodeValue(2, "투자 수입")]),
      CodeMapping("TYPE_STOCK", "주식종류",
        [CodeValue(1, "개별종목"), CodeValue(2, "지수 ETF"), CodeValue(3, "리츠 ETF")]),
      CodeMapping("TYPE_ACCOUNT", "계좌성격",
        [CodeValue(1, "고정자산"), CodeValue(2, "저축자산"), CodeValue(3, "투자자산")]),
      CodeMapping("TYPE_NATION", "주식 상장국가",
        [CodeValue(1, "국내"), CodeValue(2, "국내상장 외국 ETF"), CodeValue(3, "미국")])
    ]
  }

  /** The holder of the module-level table; None until loadCodeMapping has run.
      The lookups below read the table it holds. */
  class CodeRegistry {
    var globalCodeMapping: Option<seq<CodeMapping>>

    /** The table is either not loaded yet or the installed one: loadCodeMapping
        is the only writer. */
    ghost predicate Valid()
      reads this
    {
      globalCodeMapping.Some? ==> globalCodeMapping.value == InstalledCodes()
    }

    constructor ()
      ensures globalCodeMapping == None
      ensures Valid()
    {
      globalCodeMapping := None;
    }

    /** loadCodeMapping: installs the fixed table, replacing whatever was there. */
    method LoadCodeMapping()
      modifies this
      ensures globalCodeMapping == Some(InstalledCodes())
      ensures Valid() && Unambiguous(globalCodeMapping.value)
    {
      globalCodeMapping := Some(InstalledCodes());
      InstalledCodesUnambiguous();
    }

    /** getCodeValue on the loaded table: a name is returned exactly when the
        installed table holds that (main code, number, name) entry. */
    method LookupCodeValue(mainCode: string, subCode: int) returns (r: Option<string>)
      requires Valid() && globalCodeMapping.Some?
      ensures r == GetCodeValue(InstalledCodes(), mainCode, subCode)
      ensures r.Some? ==> InstalledEntry(mainCode, subCode, r.value)
      ensures forall name | InstalledEntry(mainCode, subCode, name) :: r == Some(name)
    {
      r := GetCodeValue(globalCodeMapping.value, mainCode, subCode);
      InstalledCodesUnambiguous();
      forall name
        ensures r == Some(name) <==> InstalledEntry(mainCode, subCode, name)
      {
        UnambiguousLookup(InstalledCodes(), mainCode, subCode, name);
      }
    }

    /** getSubCodeList on the loaded table: the sub-code list of the installed
        main code `mainCode`, or the empty list when it has none. */
    method LookupSubCodeList(mainCode: string) returns (r: seq<CodeValue>)
      requires Valid() && globalCodeMapping.Some?
      ensures (forall i | 0 <= i < |InstalledCodes()| :: InstalledCodes()[i].code != mainCode) ==> r == []
      ensures forall i | 0 <= i < |InstalledCodes()| && InstalledCodes()[i].code == mainCode ::
        r == InstalledCodes()[i].subCodeList
    {
      r := GetSubCodeList(globalCodeMapping.value, mainCode);
      InstalledCodesUnambiguous();
      forall i | 0 <= i < |InstalledCodes()| && InstalledCodes()[i].code == mainCode
        ensures r == InstalledCodes()[i].subCodeList
      {
        assert FirstWithCode(InstalledCodes(), i, mainCode);
      }
    }

    /** getCodeList on the loaded table: the whole installed table. */
    method LookupCodeList() returns (r: seq<CodeMapping>)
      requires Valid() && globalCodeMapping.Some?
      ensures r == InstalledCodes()
    {
      r := GetCodeList(globalCodeMapping.value);
    }
  }

  /** The installed table holds sub-code `subCode` named `name` under `mainCode`. */
  ghost predicate InstalledEntry(mainCode: string, subCode: int, name: string) {
    exists i, j | 0 <= i < |InstalledCodes()| && 0 <= j < |InstalledCodes()[i].subCodeList| ::
      InstalledCodes()[i].code == mainCode && InstalledCodes()[i].subCodeList[j] == CodeValue(subCode, name)
  }

  // ---------------------------------------------------------------------------
  // Search (the first-match search of Array.prototype.find)
  // ---------------------------------------------------------------------------

  /** The index of the first element that satisfies `p`, or |s| if none does. */
  function FirstIndex<T>(s: seq<T>, p: T -> bool): (i: nat)
    ensures i <= |s|
    ensures i < |s| ==> p(s[i])
    ensures forall j | 0 <= j < i :: !p(s[j])
    decreases |s|
  {
    if s == [] then 0
    else if p(s[0]) then 0
    else 1 + FirstIndex(s[1..], p)
  }

  /** The first element that satisfies `p`, if any. */
  function Find<T>(s: seq<T>, p: T -> bool): Option<T> {
    var i := FirstIndex(s, p);
    if i < |s| then Some(s[i]) else None
  }

  function HasCode(mainCode: string): CodeMapping -> bool {
    (c: CodeMapping) => c.code == mainCode
  }

  function HasCodeSeq(subCode: int): CodeValue -> bool {
    (v: CodeValue) => v.codeSeq == subCode
  }

  /** `i` is the position of the first main code equal to `mainCode`. */
  ghost predicate FirstWithCode(table: seq<CodeMapping>, i: int, mainCode: string) {
    && 0 <= i < |table|
    && table[i].code == mainCode
    && forall j | 0 <= j < i :: table[j].code != mainCode
  }

  /** `j` is the position of the first sub-code numbered `subCode`. */
  ghost predicate FirstWithCodeSeq(list: seq<CodeValue>, j: int, subCode: int) {
    && 0 <= j < |list|
    && list[j].codeSeq == subCode
    && forall k | 0 <= k < j :: list[k].codeSeq != subCode
  }

  // ---------------------------------------------------------------------------
  // Lookups
  // ---------------------------------------------------------------------------

  /** getCodeValue: the name of the first sub-code `subCode` of the first main
      code `mainCode`; None (undefined) when either is missing. */
  function GetCodeValue(table: seq<CodeMapping>, mainCode: string, subCode: int): (r: Option<string>)
    ensures (forall i | 0 <= i < |table| :: table[i].code != mainCode) ==> r == None
    ensures forall i | FirstWithCode(table, i, mainCode) ::
      && ((forall j | 0 <= j < |table[i].subCodeList| :: table[i].subCodeList[j].codeSeq != subCode) ==> r == None)
      && (forall j | FirstWithCodeSeq(table[i].subCodeList, j, subCode) :: r == Some(table[i].subCodeList[j].name))
  {
    match Find(table, HasCode(mainCode))
    case None => None
    case Some(code) =>
      match Find(code.subCodeList, HasCodeSeq(subCode))
      case None => None
      case Some(value) => Some(value.name)
  }

  /** getSubCodeList: a copy of the sub-code list of the first main code
      `mainCode`, or the empty list when there is none. */
  function GetSubCodeList(table: seq<CodeMapping>, mainCode: string): (r: seq<CodeValue>)
    ensures (forall i | 0 <= i < |table| :: table[i].code != mainCode) ==> r == []
    ensures forall i | FirstWithCode(table, i, mainCode) :: r == table[i].subCodeList
  {
    match Find(table, HasCode(mainCode))
    case None => []
    case Some(code) => code.subCodeList
  }

  /** getCodeList: a copy of the whole table. */
  function GetCodeList(table: seq<CodeMapping>): (r: seq<CodeMapping>)
    ensures r == table
  {
    table
  }

  /** A name that getCodeValue returns is the name of an entry with that number
      in the list getSubCodeList returns for the same main code, and a name is
      returned exactly when that list has an entry with that number. */
  lemma CodeValueInSubCodeList(table: seq<CodeMapping>, mainCode: string, subCode: int)
    ensures GetCodeValue(table, mainCode, subCode).Some? <==>
      exists v | v in GetSubCodeList(table, mainCode) :: v.codeSeq == subCode
    ensures GetCodeValue(table, mainCode, subCode).Some? ==>
      CodeValue(subCode, GetCodeValue(table, mainCode, subCode).value) in GetSubCodeList(table, mainCode)
  {
    var i := FirstIndex(table, HasCode(mainCode));
    if i < |table| {
      assert FirstWithCode(table, i, mainCode);
      var list := table[i].subCodeList;
      var j := FirstIndex(list, HasCodeSeq(subCode));
      if j < |list| {
        assert FirstWithCodeSeq(list, j, subCode);
        assert list[j] == CodeValue(subCode, list[j].name);
      }
    }
  }

  // ---------------------------------------------------------------------------
  // The installed table
  // ---------------------------------------------------------------------------

  /** No two main codes are equal, and no two sub-codes of one main code share a number. */
  ghost predicate Unambiguous(table: seq<CodeMapping>) {
    && (forall i, j | 0 <= i < j < |table| :: table[i].code != table[j].code)
    && (forall i | 0 <= i < |table| ::
          forall j, k | 0 <= j < k < |table[i].subCodeList| ::
            table[i].subCodeList[j].codeSeq != table[i].subCodeList[k].codeSeq)
  }

  lemma InstalledCodesUnambiguous()
    ensures Unambiguous(InstalledCodes())
  {
  }

  /** In an unambiguous table a lookup finds a name exactly when the table holds
      that entry, wherever it sits. */
  lemma UnambiguousLookup(table: seq<CodeMapping>, mainCode: string, subCode: int, name: string)
    requires Unambiguous(table)
    ensures GetCodeValue(table, mainCode, subCode) == Some(name) <==>
      exists i, j | 0 <= i < |table| && 0 <= j < |table[i].subCodeList| ::
        table[i].code == mainCode && table[i].subCodeList[j] == CodeValue(subCode, name)
  {
    if exists i, j | 0 <= i < |table| && 0 <= j < |table[i].subCodeList| ::
         table[i].code == mainCode && table[i].subCodeList[j] == CodeValue(subCode, name)
    {
      var i, j :| 0 <= i < |table| && 0 <= j < |table[i].subCodeList|
        && table[i].code == mainCode && table[i].subCodeList[j] == CodeValue(subCode, name);
      assert FirstWithCode(table, i, mainCode);
      assert FirstWithCodeSeq(table[i].subCodeList, j, subCode);
    } else {
      var i := FirstIndex(table, HasCode(mainCode));
      if i < |table| {
        var list := table[i].subCodeList;
        var j := FirstIndex(list, HasCodeSeq(subCode));
        if j < |list| {
          assert FirstWithCode(table, i, mainCode);
          assert FirstWithCodeSeq(list, j, subCode);
        }
      }
    }
  }
}
