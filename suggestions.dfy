/** backend/services/aiService.js, `getSuggestedQuestions(shopCategory)`: the
    starter questions the assistant offers, five for every shop and one more
    for the five categories that have their own. */
module Suggestions {

  /** `commonQuestions`, in order. */
  const CommonQuestions: seq<string> := [
    "💰 आज की sales कैसी है?",
    "📦 Which is my best selling product?",
    "📊 क्या मुझे कोई offer देना चाहिए?",
    "⚠️ Low stock वाले products कौन से हैं?",
    "👥 मेरे top customers कौन हैं?"
  ]

  /** `categorySpecific` */
  const CategorySpecific: map<string, seq<string>> := map[
    "kirana" := ["🛒 Grocery items में सबसे ज्यादा क्या बिकता है?"],
    "salon" := ["💇 Which service is most popular?"],
    "tailor" := ["👔 Peak season में क्या करूं?"],
    "tiffin" := ["🍱 Daily vs weekend orders का comparison?"],
    "tuition" := ["📚 Student retention कैसे बढ़ाएं?"]
  ]

  /** `[...commonQuestions, ...(categorySpecific[shopCategory] || [])]` */
  function SuggestedQuestions(shopCategory: string): seq<string> {
    CommonQuestions + (if shopCategory in CategorySpecific then CategorySpecific[shopCategory] else [])
  }

  /** The five common questions always come first, in order; a category of
      its own adds exactly its one question after them, any other category
      nothing; so there are always five or six. */
  lemma SuggestedShape(shopCategory: string)
    ensures var r := SuggestedQuestions(shopCategory);
            && r[..5] == CommonQuestions
            && (shopCategory in {"kirana", "salon", "tailor", "tiffin", "tuition"} <==> |r| == 6)
            && (shopCategory in CategorySpecific ==> r == CommonQuestions + [CategorySpecific[shopCategory][0]])
            && (shopCategory !in CategorySpecific ==> r == CommonQuestions)
            && (|r| == 5 || |r| == 6)
  {
    var r := SuggestedQuestions(shopCategory);
    assert r[..5] == CommonQuestions;
  }
}
