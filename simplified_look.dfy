/** The look strip in a bot message (src/components/SimplifiedLookComponent.tsx):
    one card per look, each showing the first product of every slot that has
    one, labelled "Look 1" .. "Look n", and a footer about the looks still on
    their way. */
module SimplifiedLook {
  import opened Common
  import opened Types
  import LookDetailModal

  /** A product tagged with the index key of its slot (`{ ...item, category }`). */
  datatype CardItem = CardItem(item: ProductItem, category: string)

  /** `lookData.itemsN?.[0]`: the first element of a non-empty array. A
      non-array object has no element 0, so it yields nothing. */
  function FirstOf(slot: Slot): (first: Option<ProductItem>)
    ensures first.Some? <==> slot.ItemList? && |slot.items| > 0
    ensures first.Some? ==> first.value == slot.items[0]
  {
    if slot.ItemList? && |slot.items| > 0 then Some(slot.items[0]) else None
  }

  /** Slot `n`'s tagged first product, if it has one. */
  function CardCandidate(look: LookData, n: int): Option<CardItem>
    requires 1 <= n <= 5
  {
    var first := FirstOf(SlotAt(look, n));
    if first.Some? then Some(CardItem(first.value, LookDetailModal.IndexKeys[n - 1])) else None
  }

  function CardCandidates(look: LookData): (cs: seq<Option<CardItem>>)
    ensures |cs| == 5 && forall j :: 0 <= j < 5 ==> cs[j] == CardCandidate(look, j + 1)
  {
    [CardCandidate(look, 1), CardCandidate(look, 2), CardCandidate(look, 3),
     CardCandidate(look, 4), CardCandidate(look, 5)]
  }

  /** `getFirstItemFromEachCategory`: five `if`s, each pushing the first
      product of its slot. */
  method GetFirstItemFromEachCategory(lookData: LookData) returns (items: seq<CardItem>)
    ensures items == Somes(CardCandidates(lookData))
  {
    ghost var cs := CardCandidates(lookData);
    items := [];
    if lookData.items1.ItemList? && |lookData.items1.items| > 0 {
      items := items + [CardItem(lookData.items1.items[0], "item1")];
    }
    assert items == Somes(cs[..1]);
    if lookData.items2.ItemList? && |lookData.items2.items| > 0 {
      items := items + [CardItem(lookData.items2.items[0], "item2")];
    }
    assert cs[..2][..1] == cs[..1];
    assert items == Somes(cs[..2]);
    if lookData.items3.ItemList? && |lookData.items3.items| > 0 {
      items := items + [CardItem(lookData.items3.items[0], "item3")];
    }
    assert cs[..3][..2] == cs[..2];
    assert items == Somes(cs[..3]);
    if lookData.items4.ItemList? && |lookData.items4.items| > 0 {
      items := items + [CardItem(lookData.items4.items[0], "item4")];
    }
    assert cs[..4][..3] == cs[..3];
    assert items == Somes(cs[..4]);
    if lookData.items5.ItemList? && |lookData.items5.items| > 0 {
      items := items + [CardItem(lookData.items5.items[0], "item5")];
    }
    assert cs[..5][..4] == cs[..4];
    assert cs[..5] == cs;
  }

  /** At most five thumbnails, and slot `n`'s first product is among them
      exactly when the slot is a non-empty array. */
  lemma FirstItemsCover(look: LookData)
    ensures |Somes(CardCandidates(look))| <= 5
    ensures forall n :: 1 <= n <= 5 ==>
              ((exists c: CardItem :: c in Somes(CardCandidates(look)) && c.category == LookDetailModal.IndexKeys[n - 1])
               <==> FirstOf(SlotAt(look, n)).Some?)
  {
    var cs := CardCandidates(look);
    LookDetailModal.IndexKeysDistinct();
    forall n | 1 <= n <= 5
      ensures (exists c: CardItem :: c in Somes(cs) && c.category == LookDetailModal.IndexKeys[n - 1])
              <==> FirstOf(SlotAt(look, n)).Some?
    {
      if FirstOf(SlotAt(look, n)).Some? {
        SomesMembership(cs, cs[n - 1].value);
      }
      if c :| c in Somes(cs) && c.category == LookDetailModal.IndexKeys[n - 1] {
        SomesMembership(cs, c);
        var k :| 0 <= k < 5 && cs[k] == Some(c);
        assert LookDetailModal.IndexKeys[k] == LookDetailModal.IndexKeys[n - 1];
      }
    }
  }

  /** Each thumbnail is the first product of the slot it is tagged with, and
      the thumbnails come in slot order. */
  lemma FirstItemsFromSlots(look: LookData)
    ensures forall c :: c in Somes(CardCandidates(look)) ==>
              exists n :: 1 <= n <= 5 && c.category == LookDetailModal.IndexKeys[n - 1]
                          && FirstOf(SlotAt(look, n)) == Some(c.item)
    ensures forall i, j :: 0 <= i < j < |Somes(CardCandidates(look))| ==>
              LookDetailModal.Position(Somes(CardCandidates(look))[i].category)
              < LookDetailModal.Position(Somes(CardCandidates(look))[j].category)
  {
    var cs := CardCandidates(look);
    var r := Somes(cs);
    forall c | c in r
      ensures exists n :: 1 <= n <= 5 && c.category == LookDetailModal.IndexKeys[n - 1]
                          && FirstOf(SlotAt(look, n)) == Some(c.item)
    {
      SomesMembership(cs, c);
      var k :| 0 <= k < 5 && cs[k] == Some(c);
      assert c.category == LookDetailModal.IndexKeys[k] && FirstOf(SlotAt(look, k + 1)) == Some(c.item);
    }
    SomesEnumerate(cs);
    var ps := SomePositions(cs);
    forall i | 0 <= i < |r|
      ensures LookDetailModal.Position(r[i].category) == ps[i]
    {
      assert cs[ps[i]] == Some(r[i]);
    }
  }

  /** A slot holding a single non-array product is a thumbnail-less slot on
      the card, while the detail modal shows it as a one-product list. */
  lemma NonArraySlotOnlyInModal(look: LookData, m: map<string, int>, n: int)
    requires 1 <= n <= 5 && SlotAt(look, n).NonArray?
    ensures CardCandidate(look, n).None?
    ensures LookDetailModal.EntryFor(look, m, n) in LookDetailModal.DisplayItems(look, m)
  {
    LookDetailModal.DisplayItemsCover(look, m);
  }

  /** The label under look card `i` (0-based): "Look " and `i + 1`. */
  function LookLabel(i: nat): (caption: string)
    ensures |caption| > 5 && caption[..5] == "Look " && caption[5..] == NatToString(i + 1)
  {
    "Look " + NatToString(i + 1)
  }

  /** `allLooks.length > 0 ? allLooks : []`, one label per card in order. */
  function CardLabels(allLooks: seq<LookData>): (labels: seq<string>)
    ensures |labels| == |allLooks|
    ensures forall i :: 0 <= i < |labels| ==> labels[i] == LookLabel(i)
  {
    var displayLooks := if |allLooks| > 0 then allLooks else [];
    seq(|displayLooks|, i requires 0 <= i < |displayLooks| => LookLabel(i))
  }

  /** Two cards never carry the same label. */
  lemma LabelsDistinct(allLooks: seq<LookData>, i: nat, j: nat)
    requires i < j < |allLooks|
    ensures CardLabels(allLooks)[i] != CardLabels(allLooks)[j]
  {
    var a, b := LookLabel(i), LookLabel(j);
    if a == b {
      assert a[5..] == b[5..];
      NatToStringInjective(i + 1, j + 1);
    }
  }

  const CompletionText := "✨" + " Todos os looks gerados • Clique em qualquer look para ver detalhes"

  /** `''` for one, `'s'` for any other count. */
  function Plural(n: int): (suffix: string)
    ensures suffix == "" <==> n == 1
  {
    if n != 1 then "s" else ""
  }

  /** The words after the count, with the plural suffixes of that count. */
  function PendingWords(n: int): string {
    "look" + Plural(n) + " restante" + Plural(n) + " chegando..."
  }

  /** The footer: the pending count while looks are on their way, the
      completion text otherwise. */
  function FooterText(remainingLooks: int): string {
    if remainingLooks > 0 then IntToString(remainingLooks) + " " + PendingWords(remainingLooks)
    else CompletionText
  }

  /** One pending look is announced in the singular. */
  lemma FooterSingular()
    ensures FooterText(1) == "1" + " " + "look restante chegando..."
  {
    assert PendingWords(1) == "look restante chegando...";
  }

  /** Several pending looks are announced in the plural, in both words. */
  lemma FooterPlural(n: int)
    requires n > 1
    ensures FooterText(n) == IntToString(n) + " " + "looks restantes chegando..."
  {
    assert PendingWords(n) == "looks restantes chegando...";
  }

  /** With nothing pending the footer is the completion text. */
  lemma FooterDone(n: int)
    requires n <= 0
    ensures FooterText(n) == CompletionText
  {
  }

  /** The footer tells the looks-pending state apart from the finished one,
      and distinct pending counts read differently. */
  lemma FooterDistinguishesCounts(a: int, b: int)
    requires a != b && (a > 0 || b > 0)
    ensures FooterText(a) != FooterText(b)
  {
    if a > 0 && b > 0 && FooterText(a) == FooterText(b) {
      IntToStringNoSpace(a);
      IntToStringNoSpace(b);
      WordBeforeSpace(IntToString(a), PendingWords(a), IntToString(b), PendingWords(b));
      IntToStringInjective(a, b);
    } else if a > 0 && b <= 0 {
      PendingFooterStartsWithDigit(a);
    } else if b > 0 && a <= 0 {
      PendingFooterStartsWithDigit(b);
    }
  }

  lemma IntToStringNoSpace(n: int)
    ensures ' ' !in IntToString(n)
  {
    var s := NatToString(if n < 0 then -n else n);
    assert forall i :: 0 <= i < |s| ==> s[i] != ' ';
  }

  lemma PendingFooterStartsWithDigit(n: int)
    requires n > 0
    ensures '0' <= FooterText(n)[0] <= '9' && FooterText(n) != CompletionText
  {
    assert FooterText(n)[0] == NatToString(n)[0];
    assert CompletionText[0] == '✨';
  }
}
