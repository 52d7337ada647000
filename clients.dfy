/** The customer service: the seed directory, the phone and e-mail format
    checks, and the two read handlers. */
module Clients {
  import opened Wrappers
  import opened Lists
  import opened Text

  datatype Client = Client(id: int, name: string, phone: string, email: string)

  /** The `clientes` array and the `proximoId` counter. The handlers modelled
      here only read them. */
  datatype Directory = Directory(clients: seq<Client>, nextId: int)

  /** The answer of `GET /clientes`: the clients and their count. */
  datatype Listing = Listing(data: seq<Client>, total: int)

  function Seed(): Directory {
    Directory([Client(1, "João", "(11) 91234-5678", "joao@example.com"),
               Client(2, "Maria", "(21) 99876-5432", "maria@example.com")],
              3)
  }

  ghost predicate WellFormed(d: Directory) {
    && (forall i, j :: 0 <= i < j < |d.clients| ==> d.clients[i].id != d.clients[j].id)
    && (forall i :: 0 <= i < |d.clients| ==> d.clients[i].id < d.nextId)
  }

  // ---------------------------------------------------------------------
  // Format checks
  // ---------------------------------------------------------------------

  /** A character of the regular-expression class `\s`: the ECMAScript
      white space and line terminator characters. */
  predicate IsSpace(c: char) {
    || c == '\t' || c == '\n' || c == '\U{000B}' || c == '\U{000C}' || c == '\r' || c == ' '
    || c == '\U{00A0}' || c == '\U{1680}' || ('\U{2000}' <= c <= '\U{200A}')
    || c == '\U{2028}' || c == '\U{2029}' || c == '\U{202F}' || c == '\U{205F}'
    || c == '\U{3000}' || c == '\U{FEFF}'
  }

  /** `validarTelefone`: the test of `^\(\d{2}\)\s\d{4,5}-\d{4}$`, read
      position by position. */
  predicate ValidPhone(t: string) {
    && (|t| == 14 || |t| == 15)
    && t[0] == '(' && IsDigit(t[1]) && IsDigit(t[2]) && t[3] == ')' && IsSpace(t[4])
    && AllDigits(t[5..|t| - 5]) && t[|t| - 5] == '-' && AllDigits(t[|t| - 4..])
  }

  /** Every string the pattern describes is accepted: two digits in
      parentheses, one space character, four or five digits, a hyphen and
      four digits. */
  lemma PhoneFromParts(area: string, space: char, exchange: string, line: string)
    requires |area| == 2 && AllDigits(area) && IsSpace(space)
    requires (|exchange| == 4 || |exchange| == 5) && AllDigits(exchange)
    requires |line| == 4 && AllDigits(line)
    ensures ValidPhone("(" + area + ")" + [space] + exchange + "-" + line)
  {
    var t := "(" + area + ")" + [space] + exchange + "-" + line;
    assert t[1] == area[0] && t[2] == area[1] && t[4] == space;
    assert t[5..|t| - 5] == exchange;
    assert t[|t| - 4..] == line;
  }

  /** Every accepted string is one the pattern describes, so it has 14 or
      15 characters. */
  lemma PhoneParts(t: string) returns (area: string, space: char, exchange: string, line: string)
    requires ValidPhone(t)
    ensures |area| == 2 && AllDigits(area) && IsSpace(space)
    ensures (|exchange| == 4 || |exchange| == 5) && AllDigits(exchange)
    ensures |line| == 4 && AllDigits(line)
    ensures t == "(" + area + ")" + [space] + exchange + "-" + line
    ensures |t| == 14 || |t| == 15
  {
    area, space, exchange, line := t[1..3], t[4], t[5..|t| - 5], t[|t| - 4..];
    assert t == t[..1] + area + t[3..4] + [space] + exchange + t[|t| - 5..|t| - 4] + line;
  }

  /** A run of the class `[^\s@]+`. */
  predicate Atom(s: string) {
    |s| > 0 && forall i :: 0 <= i < |s| ==> !IsSpace(s[i]) && s[i] != '@'
  }

  /** `[^\s@]+\.[^\s@]+`: no space or '@', and a '.' with text on both sides. */
  predicate Domain(d: string) {
    Atom(d) && exists i :: 0 < i < |d| - 1 && d[i] == '.'
  }

  /** `validarEmail`: the test of `^[^\s@]+@[^\s@]+\.[^\s@]+$`, read as:
      split at the first '@', then check both sides. */
  predicate ValidEmail(e: string) {
    match FindFirst(e, (c: char) => c == '@')
    case None => false
    case Some(k) => Atom(e[..k]) && Domain(e[k + 1..])
  }

  /** Every string the pattern describes is accepted. */
  lemma EmailFromParts(local: string, host: string, suffix: string)
    requires Atom(local) && Atom(host) && Atom(suffix)
    ensures ValidEmail(local + "@" + host + "." + suffix)
  {
    var e := local + "@" + host + "." + suffix;
    var at := FindFirst(e, (c: char) => c == '@');
    assert e[|local|] == '@';
    assert forall j :: 0 <= j < |local| ==> e[j] == local[j];
    assert at == Some(|local|);
    var d := e[|local| + 1..];
    assert d == host + "." + suffix;
    assert d[|host|] == '.';
    assert e[..|local|] == local;
  }

  /** Every accepted string is one the pattern describes. */
  lemma EmailParts(e: string) returns (local: string, host: string, suffix: string)
    requires ValidEmail(e)
    ensures Atom(local) && Atom(host) && Atom(suffix)
    ensures e == local + "@" + host + "." + suffix
  {
    var k := FindFirst(e, (c: char) => c == '@').value;
    var d := e[k + 1..];
    var i :| 0 < i < |d| - 1 && d[i] == '.';
    local, host, suffix := e[..k], d[..i], d[i + 1..];
    assert d == host + "." + suffix;
    assert e == e[..k] + [e[k]] + d;
  }

  /** An accepted address holds exactly one '@'. */
  lemma EmailHasOneAt(e: string)
    requires ValidEmail(e)
    ensures multiset(e)['@'] == 1
  {
    var local, host, suffix := EmailParts(e);
    assert '@' !in local && '@' !in host && '@' !in suffix;
    assert multiset(e) == multiset(local) + multiset{'@'} + multiset(host) + multiset{'.'} + multiset(suffix);
  }

  // ---------------------------------------------------------------------
  // Read handlers
  // ---------------------------------------------------------------------

  /** `GET /clientes`: every client, with `total` their count. */
  function List(d: Directory): (l: Listing)
    ensures l.data == d.clients && l.total == |l.data|
  {
    Listing(d.clients, |d.clients|)
  }

  /** `GET /clientes/:id`: `clientes.find(c => c.id === id)`; None for a path
      id `parseInt` reads as NaN. */
  function Get(d: Directory, id: Option<int>): (r: Option<Client>)
    ensures r.Some? <==> id.Some? && exists i :: 0 <= i < |d.clients| && d.clients[i].id == id.value
    ensures r.Some? ==> r.value.id == id.value && r.value in d.clients
  {
    if id.None? then None
    else match FindFirst(d.clients, (c: Client) => c.id == id.value)
      case None => None
      case Some(k) => Some(d.clients[k])
  }

  /** The seed: ids 1 and 2, unique and below the counter 3. */
  lemma SeedIsWellFormed()
    ensures WellFormed(Seed())
  {
  }

  /** The seed phones pass the format check. */
  lemma SeedPhonesAccepted()
    ensures forall c :: c in Seed().clients ==> ValidPhone(c.phone)
  {
    var p0, p1 := "(11) 91234-5678", "(21) 99876-5432";
    PhoneFromParts("11", ' ', "91234", "5678");
    assert "(" + "11" + ")" + [' '] + "91234" + "-" + "5678" == p0;
    PhoneFromParts("21", ' ', "99876", "5432");
    assert "(" + "21" + ")" + [' '] + "99876" + "-" + "5432" == p1;
    var cs := Seed().clients;
    assert cs[0].phone == p0 && cs[1].phone == p1;
    assert forall c :: c in cs ==> c.phone == p0 || c.phone == p1;
  }

  /** The seed e-mails pass the format check. */
  lemma SeedEmailsAccepted()
    ensures forall c :: c in Seed().clients ==> ValidEmail(c.email)
  {
    var e0, e1 := "joao@example.com", "maria@example.com";
    LiteralEmailsAccepted();
    assert ValidEmail(e0) && ValidEmail(e1);
    var cs := Seed().clients;
    assert cs[0].email == e0 && cs[1].email == e1;
    assert forall c :: c in cs ==> c.email == e0 || c.email == e1;
  }

  lemma LiteralEmailsAccepted()
    ensures ValidEmail("joao@example.com") && ValidEmail("maria@example.com")
  {
    AtomsOfSeedEmails();
    EmailFromParts("joao", "example", "com");
    assert "joao" + "@" + "example" + "." + "com" == "joao@example.com";
    EmailFromParts("maria", "example", "com");
    assert "maria" + "@" + "example" + "." + "com" == "maria@example.com";
  }

  lemma AtomsOfSeedEmails()
    ensures Atom("joao") && Atom("maria") && Atom("example") && Atom("com")
  {
  }
}
