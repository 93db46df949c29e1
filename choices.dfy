/** The option lists a rule editor offers: client keys, names and addresses
    seen by the server, and accounts, each behind a sentinel option. */
module Choices {

  /** A client the server has seen. */
  datatype Client = Client(key: string, name: string, platform: string, product: string, address: string)

  /** The client attribute a rule can match on. */
  datatype Attribute = KeyAttribute | NameAttribute | AddressAttribute

  /** An option's `type` and the metadata that comes with it; `Untyped` is an
      option without a `type` (the sentinels, and account options). */
  datatype ChoiceKind = Untyped | KeyChoice(name: string, platform: string, product: string) | NameChoice | AddressChoice

  /** A select option: sort tag (`$order`), type, value and display text. */
  datatype Choice = Choice(order: int, kind: ChoiceKind, value: string, text: string)

  /** The "match any" option heading every attribute list. */
  const AnyChoice: Choice := Choice(1, Untyped, "*", "Any")
  /** The "no account" option heading the account list. */
  const NoAccountChoice: Choice := Choice(1, Untyped, "-", "None")

  /** The sort tag of every option derived from a client. */
  const ClientOrder: int := 10

  function AttributeOf(c: Client, attr: Attribute): string {
    match attr
    case KeyAttribute => c.key
    case NameAttribute => c.name
    case AddressAttribute => c.address
  }

  /** The option `updateClients` derives from one client for one attribute. */
  function ChoiceFor(c: Client, attr: Attribute): (o: Choice)
    ensures o.order == ClientOrder
    ensures o.value == AttributeOf(c, attr) && o.text == AttributeOf(c, attr)
    ensures attr == KeyAttribute <==> o.kind.KeyChoice?
    ensures attr == KeyAttribute ==> o.kind == KeyChoice(c.name, c.platform, c.product)
    ensures attr == NameAttribute <==> o.kind.NameChoice?
    ensures attr == AddressAttribute <==> o.kind.AddressChoice?
  {
    match attr
    case KeyAttribute => Choice(ClientOrder, KeyChoice(c.name, c.platform, c.product), c.key, c.key)
    case NameAttribute => Choice(ClientOrder, NameChoice, c.name, c.name)
    case AddressAttribute => Choice(ClientOrder, AddressChoice, c.address, c.address)
  }

  /** One derived option per client, in input order. */
  function ClientChoices(clients: seq<Client>, attr: Attribute): (r: seq<Choice>)
    ensures |r| == |clients|
    ensures forall i :: 0 <= i < |clients| ==> r[i] == ChoiceFor(clients[i], attr)
  {
    if clients == [] then [] else [ChoiceFor(clients[0], attr)] + ClientChoices(clients[1..], attr)
  }

  /** The list `updateClients` stores for one attribute: the "Any" sentinel,
      then one option per client in input order; the sentinel sorts first. */
  function Available(clients: seq<Client>, attr: Attribute): (r: seq<Choice>)
    ensures |r| == |clients| + 1 && r[0] == AnyChoice
    ensures forall i :: 0 <= i < |clients| ==> r[i + 1] == ChoiceFor(clients[i], attr)
    ensures forall i :: 1 <= i < |r| ==> r[0].order < r[i].order
  {
    [AnyChoice] + ClientChoices(clients, attr)
  }

  function Values(s: seq<Choice>): seq<string> {
    seq(|s|, i requires 0 <= i < |s| => s[i].value)
  }

  /** A value is offered for an attribute exactly when it is "*" or some
      client's value of that attribute. */
  lemma AvailableValues(clients: seq<Client>, attr: Attribute, v: string)
    ensures v in Values(Available(clients, attr)) <==>
            v == "*" || exists c :: c in clients && AttributeOf(c, attr) == v
  {
    var r := Available(clients, attr);
    var vs := Values(r);
    assert |vs| == |clients| + 1;
    if v in vs && v != "*" {
      var i :| 0 <= i < |vs| && vs[i] == v;
      assert i != 0 by { assert vs[0] == r[0].value == "*"; }
      assert r[i] == ChoiceFor(clients[i - 1], attr);
      assert clients[i - 1] in clients && AttributeOf(clients[i - 1], attr) == v;
    }
    if exists c :: c in clients && AttributeOf(c, attr) == v {
      var c :| c in clients && AttributeOf(c, attr) == v;
      var i :| 0 <= i < |clients| && clients[i] == c;
      assert r[i + 1] == ChoiceFor(c, attr);
      assert vs[i + 1] == v;
    }
    if v == "*" {
      assert vs[0] == v;
    }
  }

  /** The list `updateAccounts` stores: the "None" sentinel, then the accounts. */
  function AccountChoices(accounts: seq<Choice>): (r: seq<Choice>)
    ensures |r| == |accounts| + 1 && r[0] == NoAccountChoice && r[1..] == accounts
  {
    [NoAccountChoice] + accounts
  }

  /** `s[i]` is the last entry of `s` with its value. */
  predicate IsLastOfValue(s: seq<Choice>, i: int) {
    0 <= i < |s| && forall j :: i < j < |s| ==> s[j].value != s[i].value
  }

  /** The index by value (lodash `indexBy`): one key per value in `s`, mapped
      to the last entry carrying it. */
  function IndexByValue(s: seq<Choice>): (m: map<string, Choice>)
    ensures m.Keys == set c | c in s :: c.value
    ensures forall i :: IsLastOfValue(s, i) ==> m[s[i].value] == s[i]
    decreases |s|
  {
    if s == [] then map[]
    else
      var p := s[..|s| - 1];
      var x := s[|s| - 1];
      var m := IndexByValue(p);
      assert forall i :: IsLastOfValue(s, i) && i < |s| - 1 ==> IsLastOfValue(p, i);
      assert s == p + [x];
      m[x.value := x]
  }

  /** The account index resolves "-" to the sentinel unless an account in the
      input carries "-", and then to the last such account. */
  lemma AccountIndexSentinel(accounts: seq<Choice>)
    ensures "-" in IndexByValue(AccountChoices(accounts))
    ensures (forall a :: a in accounts ==> a.value != "-") ==>
              IndexByValue(AccountChoices(accounts))["-"] == NoAccountChoice
    ensures forall i :: IsLastOfValue(accounts, i) && accounts[i].value == "-" ==>
              IndexByValue(AccountChoices(accounts))["-"] == accounts[i]
  {
    var s := AccountChoices(accounts);
    assert s[0] in s;
    if forall a :: a in accounts ==> a.value != "-" {
      assert IsLastOfValue(s, 0) by {
        forall j | 0 < j < |s| ensures s[j].value != s[0].value {
          assert s[j] == accounts[j - 1] && accounts[j - 1] in accounts;
        }
      }
    }
    forall i | IsLastOfValue(accounts, i) && accounts[i].value == "-"
      ensures IndexByValue(s)["-"] == accounts[i]
    {
      assert s[i + 1] == accounts[i];
      assert IsLastOfValue(s, i + 1) by {
        forall j | i + 1 < j < |s| ensures s[j].value != s[i + 1].value {
          assert s[j] == accounts[j - 1];
        }
      }
    }
  }
}
