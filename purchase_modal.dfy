/**
 * The purchase wizard of the delivery page (src-delivery/components/PurchaseModal.jsx):
 * four steps (upload photos, select a style, add comments, confirm and check out) with a
 * price of ten per photo and a checkout link whose quantity is the number of photos.
 */
module PurchaseModal {
  import opened Wrappers
  import opened JsText

  /** The Shopify variant the checkout link orders. */
  const VariantId: string := "51674648543548"

  /** The checkout link up to the quantity. */
  const CartPrefix: string := "https://bellastaging.myshopify.com/cart/" + VariantId + ":"

  /** The styles offered at step 2. */
  const Styles: seq<string> := ["Modern", "Scandinavian", "Industrial", "Bohemian", "Traditional", "Farmhouse"]

  /** The price per photo. */
  const PricePerPhoto: nat := 10

  /** The states the wizard can be in: a step from 1 to 4, and past step 1 only with photos. */
  predicate Reachable(step: int, photos: nat) {
    1 <= step <= 4 && (step >= 2 ==> photos >= 1)
  }

  /** `Math.max(1, files.length)`: the quantity ordered, at least one. */
  function Quantity(photos: nat): (q: nat)
    ensures q >= 1
    ensures photos >= 1 ==> q == photos
    ensures photos == 0 ==> q == 1
  {
    if photos > 1 then photos else 1
  }

  /** The checkout link for a quantity: the cart prefix, then the quantity in decimal. */
  function CheckoutUrl(quantity: nat): (url: string)
    ensures |url| > |CartPrefix| && url[..|CartPrefix|] == CartPrefix
    ensures IsDecimal(url[|CartPrefix|..]) && ParseDecimal(url[|CartPrefix|..]) == quantity
    ensures url[|CartPrefix|] == '0' ==> quantity == 0 && url == CartPrefix + "0"
  {
    var digits := NatToString(quantity);
    DecimalRoundTrip(quantity);
    var url := CartPrefix + digits;
    assert url[..|CartPrefix|] == CartPrefix && url[|CartPrefix|..] == digits;
    url
  }

  /** Different quantities give different links. */
  lemma CheckoutUrlInjective(m: nat, n: nat)
    requires CheckoutUrl(m) == CheckoutUrl(n)
    ensures m == n
  {
  }

  /**
   * The total shown at step 4: ten per photo. It is the price of the quantity the checkout
   * link orders exactly when a photo is selected; with none, the link would still order one.
   */
  function Total(photos: nat): (t: nat)
    ensures t == PricePerPhoto * photos
    ensures t == PricePerPhoto * Quantity(photos) <==> photos >= 1
  {
    photos * 10
  }

  /** At step 4 the total charged is the price of the quantity ordered. */
  lemma CheckoutChargesTotal(step: int, photos: nat)
    requires Reachable(step, photos) && step == 4
    ensures Total(photos) == PricePerPhoto * Quantity(photos)
    ensures Quantity(photos) == photos
  {
  }

  /** The progress bar's width, in percent: a quarter per step. */
  function ProgressWidth(step: int): (w: real)
    requires 1 <= step <= 4
    ensures 0.0 < w <= 100.0
    ensures w == 100.0 <==> step == 4
  {
    (step as real / 4.0) * 100.0
  }

  /** The bar grows with every step. */
  lemma ProgressGrows(step: int)
    requires 1 <= step < 4
    ensures ProgressWidth(step) < ProgressWidth(step + 1)
  {
  }

  /** `style || "None"`: the style shown at step 4. */
  function StyleLabel(style: string): (shown: string)
    ensures shown != ""
    ensures style != "" ==> shown == style
    ensures style == "" ==> shown == "None"
  {
    if style == "" then "None" else style
  }

  /** Continue is disabled at step 1 while no photo is selected. */
  predicate PrimaryDisabled(step: int, photos: nat) {
    step == 1 && photos == 0
  }

  /**
   * The wizard's state. It belongs to the modal component, which stays mounted while the
   * page shows it closed, so closing and reopening keeps the step, the photos, the style
   * and the comments.
   */
  class Wizard {
    var isOpen: bool
    var step: int
    /** The names of the selected photos, in selection order. */
    var files: seq<string>
    var style: string
    var comments: string

    ghost predicate Valid()
      reads this
    {
      Reachable(step, |files|)
    }

    /** The initial state: closed, at step 1, with no photos, style or comments. */
    constructor ()
      ensures Valid()
      ensures !isOpen && step == 1 && files == [] && style == "" && comments == ""
    {
      isOpen := false;
      step := 1;
      files := [];
      style := "";
      comments := "";
    }

    /** The pricing call to action opens the modal. */
    method Open()
      modifies this`isOpen
      ensures isOpen
    {
      isOpen := true;
    }

    /** The close button or the backdrop closes it; the wizard's state stays. */
    method Close()
      modifies this`isOpen
      ensures !isOpen
    {
      isOpen := false;
    }

    /**
     * `handleFileChange` on the step-1 input: the chosen photos, when the input reports a
     * file list, follow the earlier ones.
     */
    method AddFiles(chosen: Option<seq<string>>)
      requires Valid() && isOpen && step == 1
      modifies this`files
      ensures Valid()
      ensures files == old(files) + chosen.GetOr([])
    {
      if chosen.Some? {
        files := files + chosen.value;
      }
    }

    /** A style button at step 2. */
    method SelectStyle(s: string)
      requires Valid() && isOpen && step == 2 && s in Styles
      modifies this`style
      ensures Valid() && style == s
    {
      style := s;
    }

    /** Typing in the step-3 text area. */
    method SetComments(text: string)
      requires Valid() && isOpen && step == 3
      modifies this`comments
      ensures Valid() && comments == text
    {
      comments := text;
    }

    /** The back button, shown from step 2 on. */
    method Back()
      requires Valid() && isOpen && step > 1
      modifies this`step
      ensures Valid() && step == old(step) - 1
    {
      step := step - 1;
    }

    /**
     * The main button when it is enabled: Continue on steps 1 to 3, Checkout on step 4,
     * which answers the link the browser is sent to.
     */
    method Primary() returns (checkout: string)
      requires Valid() && isOpen && !PrimaryDisabled(step, |files|)
      modifies this`step
      ensures Valid()
      ensures old(step) < 4 ==> step == old(step) + 1 && checkout == ""
      ensures old(step) == 4 ==> step == 4 && checkout == CheckoutUrl(Quantity(|files|))
    {
      if step == 4 {
        checkout := CheckoutUrl(Quantity(|files|));
      } else {
        step := step + 1;
        checkout := "";
      }
    }
  }

  /** A whole purchase: two photos, a style, a comment, and the link orders two. */
  method Purchase() returns (checkout: string)
    ensures checkout == CheckoutUrl(2)
  {
    var w := new Wizard();
    w.Open();
    w.AddFiles(Some(["kitchen.jpg", "bedroom.jpg"]));
    var link := w.Primary();
    w.SelectStyle("Scandinavian");
    link := w.Primary();
    w.SetComments("Warm light, please.");
    link := w.Primary();
    w.Close();
    w.Open();
    assert w.step == 4 && |w.files| == 2;
    checkout := w.Primary();
  }
}
