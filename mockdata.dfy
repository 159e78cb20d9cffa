/** The demonstration data the store starts from when nothing is stored
    (lib/mockData.ts), and what the pages make of it. */
module MockData {
  import opened Wrappers
  import opened Seqs
  import Text
  import opened Domain
  import Orders
  import Inventory
  import Dashboard
  import Clients
  import App

  const MockCustomers: seq<Customer> := [
    Customer("1", "Jean", "Dupont", "jean@example.com", "0612345678", "12 Rue de Paris, Lyon",
             "1985-05-20", None, None, "2023-01-10"),
    Customer("2", "Marie", "Curie", "marie@example.com", "0698765432", "45 Avenue des Sciences, Paris",
             "1990-11-07", None, None, "2023-03-15")
  ]

  const MockProducts: seq<Product> := [
    Product("101", "Ray-Ban", "Wayfarer", "RB2140", Soleil, "Solaire", "Noir", 80.0, 150.0, 12, 3, None, None),
    Product("102", "Oakley", "Holbrook", "OO9102", Soleil, "Solaire", "Matte Black", 70.0, 130.0, 2, 5, None, None),
    Product("103", "Persol", "PO3092V", "3092V", Vue, "Monture", "Havane", 110.0, 220.0, 8, 2, None, None)
  ]

  /** The month of the demonstration sales, as the prefix of their dates. */
  const October: string := "2023-10-"

  const MockSales: seq<Sale> := [
    Sale("s1", "1", None, 150.0, 0.0, 20.0, Carte, [Payment("p1", 150.0, Carte, October + "01")],
         None, None, Livre, October + "01"),
    Sale("s2", "2", None, 220.0, 20.0, 20.0, Espece, [Payment("p2", 100.0, Espece, October + "05")],
         None, None, Livre, October + "05")
  ]

  /** With nothing stored, the store starts from the demonstration lists. */
  lemma FirstLaunch(parse: string -> App.Parsed<seq<Sale>>)
    ensures App.LoadFromStorage(None, parse, "sales", MockSales) == MockSales
  {
  }

  /** The first sale is settled; the second has 100 of its 220 paid, so 120
      remains and it shows as an advance at 100/220 of the way. */
  lemma MockPaymentStates()
    ensures Orders.PaymentCalculations(MockSales[0]).status == Paye
    ensures Orders.PaymentCalculations(MockSales[0]).remaining == 0.0
    ensures Orders.PaymentCalculations(MockSales[0]).progress == Some(100.0)
    ensures Orders.PaymentCalculations(MockSales[1]).status == Avance
    ensures Orders.PaymentCalculations(MockSales[1]).remaining == 120.0
    ensures Orders.PaymentCalculations(MockSales[1]).progress == Some(100.0 / 220.0 * 100.0)
  {
    var p1 := MockSales[0].payments;
    var p2 := MockSales[1].payments;
    assert p1[1..] == [] && p2[1..] == [];
    assert Orders.TotalPaid(p1) == PaymentAmount(p1[0]) + SumOf(p1[1..], PaymentAmount);
    assert Orders.TotalPaid(p2) == PaymentAmount(p2[0]) + SumOf(p2[1..], PaymentAmount);
  }

  /** Only the Oakley frame (2 in stock, minimum 5) is on the alert tab, and
      nothing is out of stock. */
  lemma MockStockAlerts()
    ensures Inventory.InTab(MockProducts[1], Inventory.Low)
    ensures !Inventory.InTab(MockProducts[0], Inventory.Low) && !Inventory.InTab(MockProducts[2], Inventory.Low)
    ensures forall p :: p in MockProducts ==> !Inventory.InTab(p, Inventory.Out)
  {
  }

  /** The two sale dates lie within October 2023, compared as text. */
  lemma OctoberDays()
    ensures Text.LexLe(October + "01", October + "01") && Text.LexLe(October + "01", October + "31")
    ensures Text.LexLe(October + "01", October + "05") && Text.LexLe(October + "05", October + "31")
  {
    CommonPrefix(October, "01", "01");
    CommonPrefix(October, "01", "31");
    CommonPrefix(October, "01", "05");
    CommonPrefix(October, "05", "31");
    assert "01"[1..] == "1" && "05"[1..] == "5";
  }

  /** Neither date has a time part. */
  lemma NoTimePart()
    ensures 'T' !in October + "01" && 'T' !in October + "05"
  {
  }

  /** Texts that share a prefix compare as what follows it. */
  lemma {:induction false} CommonPrefix(p: string, a: string, b: string)
    ensures Text.LexLe(p + a, p + b) == Text.LexLe(a, b)
  {
    if p != [] {
      assert (p + a)[0] == p[0] == (p + b)[0];
      assert (p + a)[1..] == p[1..] + a && (p + b)[1..] == p[1..] + b;
      CommonPrefix(p[1..], a, b);
    } else {
      assert p + a == a && p + b == b;
    }
  }

  /** A timestamp without a time part is its own date part. */
  lemma DateWithoutTime(t: string)
    requires 'T' !in t
    ensures Dashboard.DatePart(t) == t
  {
  }

  lemma SumOfPair(a: Sale, b: Sale)
    ensures SumOf([a, b], SaleTotal) == a.totalAmount + b.totalAmount
  {
    assert [a, b][1..] == [b];
    assert [b][1..] == [];
    assert SumOf([b], SaleTotal) == SaleTotal(b) + SumOf([], SaleTotal);
    assert SumOf([a, b], SaleTotal) == SaleTotal(a) + SumOf([b], SaleTotal);
  }

  /** Both sales are of October 2023: on that month the dashboard keeps them
      both and shows a revenue of 370. */
  lemma MockOctoberSales()
    ensures Dashboard.FilteredSales(MockSales, October + "01", October + "31") == MockSales
  {
    OctoberDays();
    NoTimePart();
    BothKept(MockSales[0], MockSales[1], October + "01", October + "31");
    assert MockSales == [MockSales[0], MockSales[1]];
  }

  /** Two sales dated without a time part, both between the bounds, are both kept. */
  lemma BothKept(s1: Sale, s2: Sale, start: string, end: string)
    requires 'T' !in s1.createdAt && Text.LexLe(start, s1.createdAt) && Text.LexLe(s1.createdAt, end)
    requires 'T' !in s2.createdAt && Text.LexLe(start, s2.createdAt) && Text.LexLe(s2.createdAt, end)
    ensures Dashboard.FilteredSales([s1, s2], start, end) == [s1, s2]
  {
    DateWithoutTime(s1.createdAt);
    DateWithoutTime(s2.createdAt);
    FilterKeepsAll([s1, s2], Dashboard.SaleInRange(start, end));
  }

  lemma MockOctoberRevenue()
    ensures Dashboard.TotalRevenue(MockSales, October + "01", October + "31") == 370.0
  {
    MockOctoberSales();
    assert MockSales == [MockSales[0], MockSales[1]];
    SumOfPair(MockSales[0], MockSales[1]);
  }

  /** The first new sale is numbered after the two demonstration sales. */
  lemma MockNextSaleId()
    ensures App.SaleId(|MockSales|) == "C0003"
  {
    assert Text.NatToDecimal(3) == "3";
    assert Text.PadStart("3", 4, '0') == "0003";
  }
}
