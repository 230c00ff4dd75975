/** The canned analysis text chosen by the AI form's category selector. */
module Insights {

  /** Which of the four static analysis texts is used. */
  datatype Topic = Conversion | Traffic | Engagement | General

  /** The analysis text: the static body for the topic, opened by the user's pain points quoted verbatim. */
  datatype Insight = Insight(topic: Topic, painPoints: string)

  /** The lookup by category: the three named categories have their own text, anything else falls back to the default one. */
  function TopicFor(category: string): (t: Topic)
    ensures t == Conversion <==> category == "conversion"
    ensures t == Traffic <==> category == "traffic"
    ensures t == Engagement <==> category == "engagement"
    ensures t == General <==> category !in {"conversion", "traffic", "engagement"}
  {
    if category == "conversion" then Conversion
    else if category == "traffic" then Traffic
    else if category == "engagement" then Engagement
    else General
  }

  function GenerateInsight(painPoints: string, category: string): (i: Insight)
    ensures i.painPoints == painPoints
    ensures i.topic == TopicFor(category)
    ensures category == "" ==> i.topic == General
  {
    Insight(TopicFor(category), painPoints)
  }
}
