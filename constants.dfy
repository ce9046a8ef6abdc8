/**
 * The plugin's constants: the brand strings and the table of supported
 * countries, each country name mapped to its ISO 4217 currency code and its
 * ISO 3166-1 alpha-2 country code.
 */
module TinggConstants {
  import opened Wrappers
  import Text

  const BrandName: string := "tingg"

  /** The gateway id registered with the shop is the brand name itself. */
  const PaymentGateway: string := BrandName

  const PaymentGatewayDescription: string :=
    BrandName + " allows you to make and collect payment in 33+ countries in Africa from a single integration"

  /** One row of the country table, keyed by the lower-case country name. */
  datatype Country = Country(name: string, currencyCode: string, countryCode: string)

  /** The supported countries, in the table's declaration order. */
  const Countries: seq<Country> := [
    Country("kenya", "KES", "KE"),
    Country("tanzania", "TZS", "TZ"),
    Country("uganda", "UGX", "UG"),
    Country("ghana", "GHS", "GH"),
    Country("zambia", "ZMW", "ZM"),
    Country("zimbabwe", "USD", "ZW"),
    Country("mozambique", "MZN", "MZ"),
    Country("nigeria", "NGN", "NG")
  ]

  predicate IsUpperLetter(c: char) {
    'A' <= c <= 'Z'
  }

  /** Shape of an ISO 3166-1 alpha-2 code: two upper-case letters. */
  predicate IsAlpha2(code: string) {
    |code| == 2 && IsUpperLetter(code[0]) && IsUpperLetter(code[1])
  }

  /** Shape of an ISO 4217 code: three upper-case letters. */
  predicate IsCurrencyCode(code: string) {
    |code| == 3 && IsUpperLetter(code[0]) && IsUpperLetter(code[1]) && IsUpperLetter(code[2])
  }

  /** The `countryCode` column of a table, in order (an `array_map` over the rows). */
  function CountryCodes(table: seq<Country>): (codes: seq<string>)
    ensures |codes| == |table|
    ensures forall i :: 0 <= i < |table| ==> codes[i] == table[i].countryCode
  {
    if table == [] then [] else [table[0].countryCode] + CountryCodes(table[1..])
  }

  /** The first row whose `countryCode` equals `code`, if any (an `array_filter`
      followed by taking the row under the first surviving key). */
  function FindByCountryCode(table: seq<Country>, code: string): (r: Option<Country>)
    ensures r.None? <==> forall i :: 0 <= i < |table| ==> table[i].countryCode != code
    ensures r.Some? ==> exists i :: 0 <= i < |table| && table[i] == r.value
                                  && (forall j :: 0 <= j < i ==> table[j].countryCode != code)
    ensures r.Some? ==> r.value.countryCode == code
  {
    if table == [] then None
    else if table[0].countryCode == code then Some(table[0])
    else
      var rest := FindByCountryCode(table[1..], code);
      assert rest.Some? ==> exists i :: 0 <= i < |table| && table[i] == rest.value
                                        && (forall j :: 0 <= j < i ==> table[j].countryCode != code) by {
        if rest.Some? {
          var k :| 0 <= k < |table[1..]| && table[1..][k] == rest.value
                   && (forall j :: 0 <= j < k ==> table[1..][j].countryCode != code);
          assert table[k + 1] == rest.value;
          assert forall j :: 0 <= j < k + 1 ==> table[j].countryCode != code by {
            forall j | 0 <= j < k + 1 ensures table[j].countryCode != code {
              if j > 0 { assert table[j] == table[1..][j - 1]; }
            }
          }
        }
      }
      rest
  }

  /** The currency of the supported country with ISO code `code`, if any. */
  function CurrencyFor(code: string): (r: Option<string>)
    ensures r.Some? <==> code in CountryCodes(Countries)
    ensures r.Some? ==> exists i :: 0 <= i < |Countries| && Countries[i].countryCode == code
                                  && Countries[i].currencyCode == r.value
  {
    match FindByCountryCode(Countries, code)
    case Some(row) => Some(row.currencyCode)
    case None => None
  }

  lemma CountriesSize()
    ensures |Countries| == 8
  {
  }

  /** No two rows share a country code. */
  lemma CountryCodesDistinct()
    ensures forall i, j :: 0 <= i < j < |Countries| ==> Countries[i].countryCode != Countries[j].countryCode
  {
  }

  /** No two rows share a currency code: the country-to-currency map is injective. */
  lemma CurrencyCodesDistinct()
    ensures forall i, j :: 0 <= i < j < |Countries| ==> Countries[i].currencyCode != Countries[j].currencyCode
  {
  }

  /** Every row carries well-formed ISO codes. */
  lemma CodesWellFormed()
    ensures forall i :: 0 <= i < |Countries| ==>
      IsAlpha2(Countries[i].countryCode) && IsCurrencyCode(Countries[i].currencyCode)
  {
  }

  /** Looking a country code up finds exactly the one row that carries it. */
  lemma LookupFindsTheRow(i: int)
    requires 0 <= i < |Countries|
    ensures FindByCountryCode(Countries, Countries[i].countryCode) == Some(Countries[i])
    ensures CurrencyFor(Countries[i].countryCode) == Some(Countries[i].currencyCode)
  {
    CountryCodesDistinct();
    var r := FindByCountryCode(Countries, Countries[i].countryCode);
    var k :| 0 <= k < |Countries| && Countries[k] == r.value
             && (forall j :: 0 <= j < k ==> Countries[j].countryCode != Countries[i].countryCode);
    assert k == i;
  }

  lemma LookupExamples()
    ensures CurrencyFor("KE") == Some("KES")
    ensures CurrencyFor("ZW") == Some("USD")
    ensures CurrencyFor("NG") == Some("NGN")
  {
    LookupFindsTheRow(0);
    LookupFindsTheRow(5);
    LookupFindsTheRow(7);
  }

  /** A country code whose first letter starts no code in the table, such as
      France's "FR", has no currency. */
  lemma UnsupportedCountry(code: string)
    requires |code| > 0 && code[0] !in "KTUGZMN"
    ensures CurrencyFor(code) == None
  {
    forall i | 0 <= i < |Countries| ensures Countries[i].countryCode != code {
      FirstLetters(i);
    }
    assert FindByCountryCode(Countries, code).None?;
  }

  lemma FirstLetters(i: int)
    requires 0 <= i < |Countries|
    ensures 0 < |Countries[i].countryCode| && Countries[i].countryCode[0] in "KTUGZMN"
  {
    if i < 2 {
    } else if i < 4 {
    } else if i < 6 {
    } else {
    }
  }

  /** The gateway id is the brand, and the brand's display form is "Tingg". */
  lemma BrandConstants()
    ensures PaymentGateway == BrandName == "tingg"
    ensures Text.Ucfirst(BrandName) == "Tingg"
  {
  }
}
