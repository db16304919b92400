/** The Dune SIM API wrapper: the token-holders URL, the client call, and the
    conversion of the JSON `holders` list into a table sorted by balance. */
module DuneEndpoints {
  import opened Wrappers
  import opened Errors
  import opened Frames
  import opened Decimal
  import opened DuneConfig
  import DuneHelpers

  const HOLDERS := "holders"
  const TOKEN_HOLDERS_PATH := "/evm/token-holders/"
  const BALANCE := DuneHelpers.BALANCE

  /** A decoded JSON reply: its top-level keys, each with a list of objects. */
  type Body = map<string, seq<Record>>

  /** What the remote API answers to one GET. */
  datatype Response = Response(status: int, body: Body)

  /** One call of the client's `get`. */
  datatype Request = Request(url: string, useSim: bool)

  /** `response.raise_for_status()` followed by `response.json()`. */
  function ReplyBody(response: Response): (r: Result<Body, Error>)
    ensures r.Failure? <==> 400 <= response.status < 600
    ensures r.Failure? ==> r.error == HttpError(response.status)
    ensures r.Success? ==> r.value == response.body
  {
    if 400 <= response.status < 600 then Failure(HttpError(response.status)) else Success(response.body)
  }

  /** The HTTP client, reduced to what it does for the wrapper: it answers each
      URL as the remote API (`server`) does and records every request. */
  class HttpClient {
    const server: string -> Response
    var requests: seq<Request>

    constructor (server: string -> Response)
      ensures this.server == server && requests == []
    {
      this.server := server;
      requests := [];
    }

    method Get(url: string, useSim: bool) returns (r: Result<Body, Error>)
      modifies this
      ensures requests == old(requests) + [Request(url, useSim)]
      ensures r == ReplyBody(server(url))
    {
      requests := requests + [Request(url, useSim)];
      r := ReplyBody(server(url));
    }
  }

  // ---- the request URL ------------------------------------------------------

  /** How an f-string prints an optional argument: None prints as "None". */
  function FormatChainId(chainId: Option<int>): (s: string)
    ensures '/' !in s
    ensures chainId.None? <==> s == "None"
    ensures chainId.Some? ==> s == IntToString(chainId.value)
  {
    match chainId
    case Some(i) => IntToStringHasNoSlash(i); IntToString(i)
    case None => "None"
  }

  function FormatAddress(tokenAddress: Option<string>): (s: string)
    ensures tokenAddress.Some? ==> s == tokenAddress.value
    ensures tokenAddress.None? ==> s == "None"
  {
    tokenAddress.GetOr("None")
  }

  /** `f"{sim_base_url}/evm/token-holders/{chain_id}/{token_address}"`. */
  function TokenHoldersUrl(base: string, chainId: Option<int>, tokenAddress: Option<string>): (url: string)
    ensures var prefix, chain, address := base + TOKEN_HOLDERS_PATH, FormatChainId(chainId), FormatAddress(tokenAddress);
      && |url| == |prefix| + |chain| + 1 + |address|
      && url[..|prefix|] == prefix
      && url[|prefix|..|prefix| + |chain|] == chain
      && url[|prefix| + |chain|] == '/'
      && url[|prefix| + |chain| + 1..] == address
  {
    base + TOKEN_HOLDERS_PATH + FormatChainId(chainId) + "/" + FormatAddress(tokenAddress)
  }

  /** A chain id's text holds no slash, so it ends at the first one. */
  lemma SlashAfter(x: string, a: string)
    requires '/' !in x
    ensures (x + "/" + a)[|x|] == '/'
    ensures forall k :: 0 <= k < |x| ==> (x + "/" + a)[k] != '/'
  {
    forall k | 0 <= k < |x| ensures (x + "/" + a)[k] != '/' {
      assert (x + "/" + a)[k] == x[k];
    }
  }

  lemma SplitAtFirstSlash(x1: string, a1: string, x2: string, a2: string)
    requires '/' !in x1 && '/' !in x2
    requires x1 + "/" + a1 == x2 + "/" + a2
    ensures x1 == x2 && a1 == a2
  {
    SlashAfter(x1, a1);
    SlashAfter(x2, a2);
    if |x1| != |x2| {
      assert false;
    }
    var s := x1 + "/" + a1;
    assert x1 == s[..|x1|] == x2;
    assert a1 == s[|x1| + 1..] == a2;
  }

  /** Under one base URL, different chains or addresses never share a URL. */
  lemma TokenHoldersUrlInjective(base: string, c1: int, a1: string, c2: int, a2: string)
    requires TokenHoldersUrl(base, Some(c1), Some(a1)) == TokenHoldersUrl(base, Some(c2), Some(a2))
    ensures c1 == c2 && a1 == a2
  {
    var prefix := base + TOKEN_HOLDERS_PATH;
    var x1, x2 := IntToString(c1), IntToString(c2);
    UrlTail(prefix, x1, a1);
    UrlTail(prefix, x2, a2);
    IntToStringHasNoSlash(c1);
    IntToStringHasNoSlash(c2);
    SplitAtFirstSlash(x1, a1, x2, a2);
    IntToStringInjective(c1, c2);
  }

  lemma UrlTail(prefix: string, x: string, a: string)
    ensures (prefix + x + "/" + a)[|prefix|..] == x + "/" + a
  {
    assert prefix + x + "/" + a == prefix + (x + "/" + a);
  }

  // ---- from the JSON reply to a table ---------------------------------------

  /** `float(v)` for one balance cell, over exact reals; text must be a plain
      decimal numeral. */
  function BalanceAsFloat(v: Value): (r: Result<real, Error>)
    ensures r.Success? <==> v.Number? || v.Flag? || (v.Text? && IsDigits(v.s))
    ensures v.Number? || v.Flag? ==> r == Success(NumericValue(v).value)
    ensures v.Text? && IsDigits(v.s) ==> r == Success(DigitsValue(v.s) as real)
    ensures v.Text? && !IsDigits(v.s) ==> r == Failure(ConversionError(v.s))
    ensures v.Missing? ==> r == Failure(NotNumeric(BALANCE))
  {
    match v
    case Number(r) => Success(r)
    case Flag(b) => Success(if b then 1.0 else 0.0)
    case Text(s) => if ParseNat(s).Some? then Success(ParseNat(s).value as real) else Failure(ConversionError(s))
    case Missing => Failure(NotNumeric(BALANCE))
  }

  /** `df['balance'].astype(float)`: every cell converted, or the first failure. */
  function BalancesAsFloat(cells: seq<Value>): (r: Result<seq<real>, Error>)
    ensures r.Success? <==> forall i :: 0 <= i < |cells| ==> BalanceAsFloat(cells[i]).Success?
    ensures r.Success? ==>
      && |r.value| == |cells|
      && forall i :: 0 <= i < |cells| ==> r.value[i] == BalanceAsFloat(cells[i]).value
  {
    if |cells| == 0 then Success([])
    else
      var head :- BalanceAsFloat(cells[0]);
      var rest :- BalancesAsFloat(cells[1..]);
      Success([head] + rest)
  }

  function NumberCells(xs: seq<real>): (cells: seq<Value>)
    ensures |cells| == |xs| && forall i :: 0 <= i < |xs| ==> cells[i] == Number(xs[i])
  {
    seq(|xs|, i requires 0 <= i < |xs| => Number(xs[i]))
  }

  /** `data.get("holders", [])`. */
  function HolderRecords(body: Body): (holders: seq<Record>)
    ensures HOLDERS in body ==> holders == body[HOLDERS]
    ensures HOLDERS !in body ==> holders == []
  {
    if HOLDERS in body then body[HOLDERS] else []
  }

  /** The table after line 50: the holder records as a table whose balance
      column holds numbers; unchanged when the table is empty. */
  function ConvertedHolders(holders: seq<Record>): (r: Result<Table, Error>)
    ensures IsEmpty(FromRecords(holders)) ==> r == Success(FromRecords(holders))
    ensures !IsEmpty(FromRecords(holders)) && BALANCE !in FromRecords(holders).columns ==>
      r == Failure(KeyError(BALANCE))
    ensures !IsEmpty(FromRecords(holders)) && BALANCE in FromRecords(holders).columns ==>
      var converted := BalancesAsFloat(Column(FromRecords(holders), BALANCE));
      && (r.Success? <==> converted.Success?)
      && (r.Failure? ==> r.error == converted.error)
  {
    var df := FromRecords(holders);
    if IsEmpty(df) then Success(df)
    else if BALANCE !in df.columns then Failure(KeyError(BALANCE))
    else
      var xs :- BalancesAsFloat(Column(df, BALANCE));
      Success(WithColumn(df, BALANCE, NumberCells(xs)))
  }

  /** What `get_token_holders` returns for a decoded reply. */
  function HoldersTable(body: Body): (r: Result<Table, Error>)
    ensures HOLDERS !in body || body[HOLDERS] == [] ==> r == Success(EMPTY_TABLE)
    ensures r.Success? <==> ConvertedHolders(HolderRecords(body)).Success?
    ensures r.Failure? ==> r.error == ConvertedHolders(HolderRecords(body)).error
  {
    var df :- ConvertedHolders(HolderRecords(body));
    if IsEmpty(df) then Success(df) else Success(SortValuesDescending(df, BALANCE))
  }

  /** The converted table of records with holders is the records' table with
      the numbers written over its balance column. */
  lemma ConvertedHoldersShape(holders: seq<Record>)
    requires ConvertedHolders(holders).Success?
    ensures !IsEmpty(FromRecords(holders)) ==>
      && BALANCE in FromRecords(holders).columns
      && BalancesAsFloat(Column(FromRecords(holders), BALANCE)).Success?
      && ConvertedHolders(holders).value == WithColumn(FromRecords(holders), BALANCE,
           NumberCells(BalancesAsFloat(Column(FromRecords(holders), BALANCE)).value))
  {
  }

  /** Records that make an empty table carry no entries at all. */
  lemma EmptyRecordsHaveNoEntries(holders: seq<Record>)
    requires IsEmpty(FromRecords(holders))
    ensures forall i :: 0 <= i < |holders| ==> |holders[i]| == 0
  {
    FirstKeysInUnion(holders);
  }

  lemma FirstKeysInUnion(holders: seq<Record>)
    ensures forall i :: 0 <= i < |holders| && |holders[i]| > 0 ==> holders[i][0].0 in KeyUnion(holders)
  {
    forall i | 0 <= i < |holders| && |holders[i]| > 0 ensures holders[i][0].0 in KeyUnion(holders) {
      assert Keys(holders[i])[0] == holders[i][0].0;
    }
  }

  /** The converted table has one row per holder record, with the record's
      values and its balance as a number. */
  lemma ConvertedHoldersRows(holders: seq<Record>)
    requires ConvertedHolders(holders).Success?
    ensures ConvertedHolders(holders).value.columns == KeyUnion(holders)
    ensures |ConvertedHolders(holders).value.rows| == |holders|
    ensures var rows := ConvertedHolders(holders).value.rows;
      forall i, j :: 0 <= i < |holders| && 0 <= j < |holders[i]| ==> CellConverted(holders[i][j], rows[i])
  {
    var df := FromRecords(holders);
    if IsEmpty(df) {
      EmptyRecordsHaveNoEntries(holders);
    } else {
      ConvertedHoldersShape(holders);
      var cells := Column(df, BALANCE);
      var xs := BalancesAsFloat(cells).value;
      forall i, j | 0 <= i < |holders| && 0 <= j < |holders[i]|
        ensures CellConverted(holders[i][j], ConvertedHolders(holders).value.rows[i])
      {
        assert cells[i] == df.rows[i][BALANCE];
        ConvertedCell(df, xs, i, holders[i][j].0, holders[i][j].1);
      }
    }
  }

  lemma ConvertedCell(df: Table, xs: seq<real>, i: int, k: string, v: Value)
    requires |xs| == |df.rows| && 0 <= i < |df.rows| && BALANCE in df.columns
    requires k in df.rows[i] && df.rows[i][k] == v
    requires BalanceAsFloat(df.rows[i][BALANCE]).Success? && xs[i] == BalanceAsFloat(df.rows[i][BALANCE]).value
    ensures CellConverted((k, v), WithColumn(df, BALANCE, NumberCells(xs)).rows[i])
  {
  }

  /** A record entry as it appears in its converted row: the same value, or
      for the balance the number it converts to. */
  predicate CellConverted(entry: (string, Value), row: Row) {
    var (k, v) := entry;
    && k in row
    && (k != BALANCE ==> row[k] == v)
    && (k == BALANCE ==> row[k].Number? && BalanceAsFloat(v) == Success(row[k].r))
  }

  /** The table a reply gives is sorted by balance, largest first, and holds
      exactly the converted rows: none is added or dropped. */
  lemma HoldersTableSorted(body: Body)
    requires HoldersTable(body).Success?
    ensures ConvertedHolders(HolderRecords(body)).Success?
    ensures var t := HoldersTable(body).value;
      var df := ConvertedHolders(HolderRecords(body)).value;
      && t.columns == df.columns
      && SortedDescending(t.rows, BALANCE)
      && multiset(t.rows) == multiset(df.rows)
      && |t.rows| == |HolderRecords(body)|
  {
    var df := ConvertedHolders(HolderRecords(body)).value;
    var t := HoldersTable(body).value;
    if IsEmpty(df) {
      assert t == df;
      forall i | 0 <= i < |t.rows| ensures SortKey(t.rows[i], BALANCE) == 0.0 {
        assert BALANCE !in ColumnSet(t.columns);
      }
    } else {
      assert t == SortValuesDescending(df, BALANCE);
      assert |t.rows| == |multiset(t.rows)| == |multiset(df.rows)| == |df.rows|;
    }
  }

  /** A converted table with rows and columns has a balance column, and every
      balance in it is a number. */
  lemma ConvertedBalancesAreNumbers(holders: seq<Record>)
    requires ConvertedHolders(holders).Success?
    ensures var t := ConvertedHolders(holders).value;
      !IsEmpty(t) ==> BALANCE in t.columns && forall row: Row :: row in t.rows ==> row[BALANCE].Number?
  {
    ConvertedHoldersShape(holders);
    var df := FromRecords(holders);
    if !IsEmpty(df) {
      NumbersWritten(df, BALANCE, BalancesAsFloat(Column(df, BALANCE)).value);
    }
  }

  lemma NumbersWritten(df: Table, name: string, xs: seq<real>)
    requires |xs| == |df.rows|
    ensures forall row: Row :: row in WithColumn(df, name, NumberCells(xs)).rows ==> row[name].Number?
  {
    var t := WithColumn(df, name, NumberCells(xs));
    forall row: Row | row in t.rows ensures row[name].Number? {
      var k :| 0 <= k < |t.rows| && t.rows[k] == row;
      assert row[name] == Number(xs[k]);
    }
  }

  /** So does the sorted table a reply gives. */
  lemma HoldersBalancesAreNumbers(body: Body)
    requires HoldersTable(body).Success?
    ensures var t := HoldersTable(body).value;
      !IsEmpty(t) ==> BALANCE in t.columns && forall i :: 0 <= i < |t.rows| ==> t.rows[i][BALANCE].Number?
  {
    var t := HoldersTable(body).value;
    HoldersTableSorted(body);
    ConvertedBalancesAreNumbers(HolderRecords(body));
    var df := ConvertedHolders(HolderRecords(body)).value;
    forall i | 0 <= i < |t.rows| ensures t.rows[i] in df.rows {
      assert t.rows[i] in multiset(df.rows);
    }
  }

  /** A text balance that Python printed from an integer reads back as that integer. */
  lemma TextBalanceReadsBack(n: nat)
    ensures BalanceAsFloat(Text(NatToString(n))) == Success(n as real)
  {
    ParseNatToString(n);
  }

  /** A reply with an empty holder list gives the empty table, whose metrics
      are all zero. */
  lemma EmptyReplyHasZeroMetrics(body: Body)
    requires body == map[HOLDERS := []]
    ensures HoldersTable(body) == Success(EMPTY_TABLE)
    ensures DuneHelpers.CalculateHolderMetrics(EMPTY_TABLE) == Success(DuneHelpers.HolderMetrics(0, 0.0, Some(0.0)))
  {
  }

  // ---- the API wrapper object -------------------------------------------------

  /** What one fetch returns for the remote API's response. */
  function Fetched(response: Response): (r: Result<Table, Error>)
    ensures 400 <= response.status < 600 ==> r == Failure(HttpError(response.status))
    ensures !(400 <= response.status < 600) ==> r == HoldersTable(response.body)
  {
    var body :- ReplyBody(response);
    HoldersTable(body)
  }

  /** `DuneAPI`: the client and the base URLs are fixed when it is made;
      `config` stands for the configuration module's values it reads. */
  class DuneAPI {
    const client: HttpClient
    const simBaseUrl: string
    const duneBaseUrl: string
    const config: Config

    constructor (client: HttpClient, config: Config)
      ensures this.client == client && this.config == config
      ensures simBaseUrl == config.simBaseUrl && duneBaseUrl == config.duneBaseUrl
    {
      this.client := client;
      this.config := config;
      simBaseUrl := config.simBaseUrl;
      duneBaseUrl := config.duneBaseUrl;
    }

    /** `get_token_holders(chain_id, token_address)`: one GET with the SIM
        headers, then the reply as a table. */
    method GetTokenHolders(chainId: Option<int> := None, tokenAddress: Option<string> := None) returns (r: Result<Table, Error>)
      modifies client
      ensures client.requests == old(client.requests) + [Request(TokenHoldersUrl(simBaseUrl, chainId, tokenAddress), true)]
      ensures r == Fetched(client.server(TokenHoldersUrl(simBaseUrl, chainId, tokenAddress)))
    {
      var url := TokenHoldersUrl(simBaseUrl, chainId, tokenAddress);
      var data := client.Get(url, true);
      if data.Failure? {
        return Failure(data.error);
      }
      r := HoldersTable(data.value);
    }

    /** `get_copm_holders`: the COPM token on the Polygon chain. */
    method GetCopmHolders() returns (r: Result<Table, Error>)
      modifies client
      ensures client.requests == old(client.requests) +
        [Request(TokenHoldersUrl(simBaseUrl, Some(config.chainIdPolygon), config.copmTokenAddress), true)]
      ensures r == Fetched(client.server(TokenHoldersUrl(simBaseUrl, Some(config.chainIdPolygon), config.copmTokenAddress)))
    {
      r := GetTokenHolders(Some(config.chainIdPolygon), config.copmTokenAddress);
    }

    /** `get_copw_holders`: the COPW token on the Ethereum chain. */
    method GetCopwHolders() returns (r: Result<Table, Error>)
      modifies client
      ensures client.requests == old(client.requests) +
        [Request(TokenHoldersUrl(simBaseUrl, Some(config.chainIdEth), config.copwTokenAddress), true)]
      ensures r == Fetched(client.server(TokenHoldersUrl(simBaseUrl, Some(config.chainIdEth), config.copwTokenAddress)))
    {
      r := GetTokenHolders(Some(config.chainIdEth), config.copwTokenAddress);
    }
  }
}
