/** The static seed data: the initial post store and the mock traffic series. */
module Constants {
  import opened Types

  /** The first sample post (id "1"). */
  const FutureOfAi: BlogPost :=
    BlogPost(
      "1",
      "The Future of AI in Mobile Development",
      "How artificial intelligence is reshaping the way we build and deploy mobile applications.",
      FutureOfAiContent,
      "Sarah Khan",
      "Oct 24, 2023",
      "5 min read",
      "Technology",
      "https://picsum.photos/800/600?random=1",
      1240)

  /** The body text of `FutureOfAi`, its line breaks and indentation kept verbatim. */
  const FutureOfAiContent: string :=
    "Artificial Intelligence is no longer just a buzzword; it's a fundamental shift in how we approach software development. In the mobile space, this is particularly evident. \n"
    + "    \n"
    + "    From predictive text to personalized user experiences, AI is embedded in the fabric of modern apps. But what does the future hold? We are looking at on-device LLMs, smarter push notifications, and adaptive interfaces that change based on user behavior.\n"
    + "    \n"
    + "    Developers who ignore this trend risk being left behind. The integration of tools like Google's Gemini allows for features we could only dream of five years ago."

  /** The second sample post (id "2"). */
  const DigitalDetox: BlogPost :=
    BlogPost(
      "2",
      "Minimalism: A Guide to Digital Detox",
      "Reclaiming your time and attention in an increasingly noisy digital world.",
      DigitalDetoxContent,
      "Ali Raza",
      "Oct 22, 2023",
      "3 min read",
      "Lifestyle",
      "https://picsum.photos/800/600?random=2",
      890)

  /** The body text of `DigitalDetox`, its line breaks and indentation kept verbatim. */
  const DigitalDetoxContent: string :=
    "We live in an economy of attention. Every app, every notification is fighting for a slice of your mental bandwidth. Minimalism isn't just about having fewer things; it's about making space for what matters.\n"
    + "    \n"
    + "    A digital detox doesn't mean throwing away your phone. It means curating your feeds, turning off non-essential notifications, and being intentional about your screen time."

  /** The third sample post (id "3"). */
  const HiddenGems: BlogPost :=
    BlogPost(
      "3",
      "Top 10 Hidden Gems in Northern Pakistan",
      "Exploring the untouched beauty of the mountains beyond the popular tourist spots.",
      HiddenGemsContent,
      "Travel with Hamza",
      "Oct 20, 2023",
      "7 min read",
      "Travel",
      "https://picsum.photos/800/600?random=3",
      3400)

  /** The body text of `HiddenGems`, its line breaks and indentation kept verbatim. */
  const HiddenGemsContent: string :=
    "While Hunza and Skardu get all the glory, there are valleys tucked away that offer even more pristine beauty without the crowds.\n"
    + "    \n"
    + "    1. Kumrat Valley: A dense forest paradise.\n"
    + "    2. Yarkhun Valley: Remote and rugged.\n"
    + "    3. Phander Lake: The clearest blue waters you've ever seen.\n"
    + "    \n"
    + "    Packing for these trips requires preparation, but the solitude is worth every effort."

  /**
   * The three sample posts the store starts with, in display order. Their ids are
   * "1", "2", "3" (pairwise distinct) and their view counters are non-negative.
   */
  function InitialPosts(): (r: seq<BlogPost>)
    ensures |r| == 3
    ensures r[0].id == "1" && r[1].id == "2" && r[2].id == "3"
    ensures forall i, j :: 0 <= i < j < |r| ==> r[i].id != r[j].id
    ensures r[0].views == 1240 && r[1].views == 890 && r[2].views == 3400
    ensures forall i :: 0 <= i < |r| ==> r[i].views >= 0
  {
    [FutureOfAi, DigitalDetox, HiddenGems]
  }

  /** The seven daily points of the traffic chart, Monday through Sunday, all counts non-negative. */
  function InitialAnalytics(): (r: seq<AnalyticsData>)
    ensures |r| == 7
    ensures seq(|r|, i requires 0 <= i < |r| => r[i].name) == ["Mon", "Tue", "Wed", "Thu", "Fri", "Sat", "Sun"]
    ensures forall i :: 0 <= i < |r| ==> r[i].views >= 0 && r[i].visitors >= 0
  {
    [
      AnalyticsData("Mon", 400, 240),
      AnalyticsData("Tue", 300, 139),
      AnalyticsData("Wed", 200, 980),
      AnalyticsData("Thu", 278, 390),
      AnalyticsData("Fri", 189, 480),
      AnalyticsData("Sat", 239, 380),
      AnalyticsData("Sun", 349, 430)
    ]
  }
}
