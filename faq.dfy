/**
 * The FAQ tables of src/utils/faq.js and the lookup with its per-language
 * fallback. The answer bodies are represented by placeholder texts, one per
 * key and language; their wording is not part of this model.
 */
module Faq {
  import opened Wrappers
  import opened Conversation

  const FaqsEn: map<string, string> := map[
    "faq_general" := "General questions (English answer)",
    "faq_payments" := "Payment questions (English answer)",
    "faq_shipping" := "Shipping and delivery questions (English answer)",
    "faq_orders" := "Ordering questions (English answer)",
    "faq_products" := "Products and returns (English answer)"
  ]

  const FaqsAr: map<string, string> := map[
    "faq_general" := "General questions (Arabic answer)",
    "faq_payments" := "Payment questions (Arabic answer)",
    "faq_shipping" := "Shipping and delivery questions (Arabic answer)",
    "faq_orders" := "Ordering questions (Arabic answer)",
    "faq_products" := "Products and returns (Arabic answer)"
  ]

  const NoInfoEn: string := "No info found for this category."
  const NoInfoAr: string := "لا توجد معلومات."

  /** JavaScript's `table[key] || fallback`: the entry when present and not the empty string. */
  function EntryOr(table: map<string, string>, key: string, fallback: string): string {
    if key in table && table[key] != "" then table[key] else fallback
  }

  /** `getFaqContent(categoryId, lang)`. */
  function GetFaqContent(categoryId: string, lang: Option<Lang>): (r: string)
    ensures lang == Some(Ar) ==> r == if categoryId in FaqsAr then FaqsAr[categoryId] else NoInfoAr
    ensures lang != Some(Ar) ==> r == if categoryId in FaqsEn then FaqsEn[categoryId] else NoInfoEn
    ensures r != ""
  {
    if lang == Some(Ar) then EntryOr(FaqsAr, categoryId, NoInfoAr)
    else EntryOr(FaqsEn, categoryId, NoInfoEn)
  }

  /** Both tables have the same five keys. */
  lemma FaqTablesAgree()
    ensures FaqsEn.Keys == FaqsAr.Keys
    ensures FaqsEn.Keys == {"faq_general", "faq_payments", "faq_shipping", "faq_orders", "faq_products"}
  {
  }

  /** The lookup answers from the table of the reply language, for every known key and language. */
  lemma FaqAnswersKnownKeys(categoryId: string, lang: Option<Lang>)
    requires categoryId in FaqsEn
    ensures GetFaqContent(categoryId, lang) != NoInfoEn && GetFaqContent(categoryId, lang) != NoInfoAr
  {
  }
}
