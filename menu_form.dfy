/**
 * The add-item form (src/components/AddMenuItem.tsx): the validation rule
 * and the price normalisation applied before the item is handed on.
 */
module MenuForm {
  import opened Wrappers
  import Strings
  import Catalog

  /** The form's values as entered; `isPopular` may be missing. */
  datatype RawForm = RawForm(name: string, description: string, price: string,
                             category: string, image: string, isPopular: Option<bool>)

  /** The values the schema accepts. */
  datatype FormData = FormData(name: string, description: string, price: string,
                               category: string, image: string, isPopular: bool)

  /** The form's initial values. */
  const DefaultValues := RawForm("", "", "", "", "", Some(false))

  /**
   * `menuItemSchema`: accepted exactly when the five text fields are all
   * non-empty; a missing `isPopular` becomes false.
   */
  function Validate(f: RawForm): (r: Option<FormData>)
    ensures r.Some? <==> f.name != "" && f.description != "" && f.price != "" && f.category != "" && f.image != ""
    ensures r.Some? ==> r.value.name == f.name && r.value.description == f.description && r.value.price == f.price
    ensures r.Some? ==> r.value.category == f.category && r.value.image == f.image
    ensures r.Some? ==> r.value.isPopular == (f.isPopular == Some(true))
  {
    if f.name != "" && f.description != "" && f.price != "" && f.category != "" && f.image != "" then
      Some(FormData(f.name, f.description, f.price, f.category, f.image, f.isPopular.GetOr(false)))
    else None
  }

  /** The untouched form is refused, and a missing flag reads as not popular. */
  lemma ValidateDefaults(f: RawForm)
    ensures Validate(DefaultValues).None?
    ensures Validate(f).Some? && f.isPopular.None? ==> !Validate(f).value.isPopular
  {
  }

  /** The currency word the price is checked for. */
  const Pound: string := "جنيه"

  /** What is appended to a price without it. */
  const PoundSuffix: string := " " + Pound + " مصري"

  /** `priceWithCurrency`: the price as is when it mentions the currency, otherwise with the currency appended. */
  function PriceWithCurrency(price: string): (r: string)
    ensures Strings.Contains(price, Pound) ==> r == price
    ensures !Strings.Contains(price, Pound) ==> r == price + PoundSuffix
  {
    if Strings.Contains(price, Pound) then price else price + PoundSuffix
  }

  /** The normalised price always mentions the currency and starts with what was typed. */
  lemma PriceMentionsCurrency(price: string)
    ensures Strings.Contains(PriceWithCurrency(price), Pound)
    ensures Strings.IsPrefix(price, PriceWithCurrency(price))
  {
    if !Strings.Contains(price, Pound) {
      Strings.ContainsMiddle(" ", Pound, " مصري");
      Strings.ContainsInRight(price, PoundSuffix, Pound);
    }
  }

  /** Normalising twice is normalising once. */
  lemma PriceIdempotent(price: string)
    ensures PriceWithCurrency(PriceWithCurrency(price)) == PriceWithCurrency(price)
  {
    PriceMentionsCurrency(price);
  }

  /** `onSubmit`: the accepted values passed on with only the price normalised. */
  function OnSubmit(data: FormData): (d: Catalog.MenuDraft)
    ensures d.price == PriceWithCurrency(data.price)
    ensures d.name == data.name && d.description == data.description
    ensures d.image == data.image && d.category == data.category && d.isPopular == data.isPopular
  {
    Catalog.MenuDraft(data.name, data.description, PriceWithCurrency(data.price), data.image, data.category, data.isPopular)
  }

  /** Every submitted item carries a price that mentions the currency, and submitting it again would not change it. */
  lemma SubmittedPrice(data: FormData)
    ensures Strings.Contains(OnSubmit(data).price, Pound)
    ensures PriceWithCurrency(OnSubmit(data).price) == OnSubmit(data).price
  {
    PriceMentionsCurrency(data.price);
  }
}
