/** The static category catalog: ten main categories, each grouping an
    ordered list of subcategories (card templates) with their field schemas,
    and the lookups the rest of the application uses to resolve a
    subcategory id. */
module Catalog {
  import opened Shared

  datatype Gradient = Magenta | Sunset | Aurora | Cosmic | Golden | Ocean | Forest | Berry | Fire | Midnight

  datatype FieldType = Text | TextArea | Image | Number

  /** One input of a card template. `required` is display metadata only. */
  datatype CategoryField = CategoryField(
    id: string,
    labelText: string,
    fieldType: FieldType,
    placeholder: Option<string>,
    required: Option<bool>)

  /** A card template ("Category" in older parts of the application). */
  datatype Subcategory = Subcategory(
    id: string,
    title: string,
    description: string,
    icon: string,
    gradient: Gradient,
    fields: seq<CategoryField>)

  datatype MainCategory = MainCategory(
    id: string,
    title: string,
    description: string,
    icon: string,
    gradient: Gradient,
    subcategories: seq<Subcategory>)

  const PeopleCategory: MainCategory :=
    MainCategory("people", "People", "Celebrate the people who made your year special", "\U{1F465}", Magenta, [
      Subcategory("friend-of-year", "Friend of the Year", "Your ride or die", "\U{1F49C}", Cosmic, [
        CategoryField("name", "Their Name", Text, Some("Enter name"), Some(true)),
        CategoryField("memory", "Best Memory Together", TextArea, Some("Your favorite moment"), None),
        CategoryField("image", "Their Photo", Image, None, None)
      ]),
      Subcategory("mentor-of-year", "Mentor of the Year", "The guide who shaped your journey", "\U{1F31F}", Golden, [
        CategoryField("name", "Their Name", Text, Some("Enter name"), Some(true)),
        CategoryField("lesson", "Biggest Lesson", TextArea, Some("What did they teach you?"), None),
        CategoryField("image", "Their Photo", Image, None, None)
      ]),
      Subcategory("person-called-most", "Most Called Contact", "The one who always picks up", "\U{1F4DE}", Magenta, [
        CategoryField("name", "Their Name", Text, Some("Enter name"), Some(true)),
        CategoryField("callCount", "Total Calls", Number, Some("247"), None),
        CategoryField("image", "Their Photo", Image, None, None)
      ]),
      Subcategory("top-5-friends", "Top 5 Friends", "Your inner circle", "\U{1F46F}", Aurora, [
        CategoryField("friend1", "Friend #1", Text, Some("Name"), Some(true)),
        CategoryField("friend2", "Friend #2", Text, Some("Name"), None),
        CategoryField("friend3", "Friend #3", Text, Some("Name"), None),
        CategoryField("friend4", "Friend #4", Text, Some("Name"), None),
        CategoryField("friend5", "Friend #5", Text, Some("Name"), None)
      ]),
      Subcategory("group-chat-mvp", "Group Chat MVP", "Most active group chat member", "\U{1F4AC}", Ocean, [
        CategoryField("name", "Their Name", Text, Some("Enter name"), Some(true)),
        CategoryField("chatName", "Group Chat Name", Text, Some("The Squad"), None),
        CategoryField("messages", "Messages Sent", Number, Some("5000"), None),
        CategoryField("image", "Their Photo", Image, None, None)
      ]),
      Subcategory("new-friend", "Best New Friend", "Someone new who became important", "\U{1F91D}", Sunset, [
        CategoryField("name", "Their Name", Text, Some("Enter name"), Some(true)),
        CategoryField("howMet", "How You Met", TextArea, Some("The story of how you met"), None),
        CategoryField("image", "Their Photo", Image, None, None)
      ])
    ])

  const EntertainmentCategory: MainCategory :=
    MainCategory("entertainment", "Entertainment", "Movies, music, shows and more", "\U{1F3AC}", Cosmic, [
      Subcategory("favorite-movie", "Movie of the Year", "The film that moved you", "\U{1F3AC}", Cosmic, [
        CategoryField("title", "Movie Title", Text, Some("Enter movie name"), Some(true)),
        CategoryField("quote", "Favorite Quote", TextArea, Some("A line that stuck with you"), None),
        CategoryField("image", "Movie Poster", Image, None, None)
      ]),
      Subcategory("favorite-song", "Song of the Year", "On repeat all year long", "\U{1F3B5}", Magenta, [
        CategoryField("song", "Song Title", Text, Some("Enter song name"), Some(true)),
        CategoryField("artist", "Artist", Text, Some("Artist name"), None),
        CategoryField("plays", "Times Played", Number, Some("500"), None)
      ]),
      Subcategory("favorite-show", "TV Show of the Year", "The show you binged", "\U{1F4FA}", Ocean, [
        CategoryField("title", "Show Title", Text, Some("Enter show name"), Some(true)),
        CategoryField("episodes", "Episodes Watched", Number, Some("50"), None),
        CategoryField("character", "Favorite Character", Text, Some("Character name"), None),
        CategoryField("image", "Show Poster", Image, None, None)
      ]),
      Subcategory("top-concert", "Best Concert", "Live music that moved you", "\U{1F3A4}", Fire, [
        CategoryField("artist", "Artist/Band", Text, Some("Enter artist name"), Some(true)),
        CategoryField("venue", "Venue", Text, Some("Concert location"), None),
        CategoryField("highlight", "Best Moment", TextArea, Some("The highlight of the night"), None),
        CategoryField("image", "Concert Photo", Image, None, None)
      ]),
      Subcategory("top-podcast", "Podcast of the Year", "Your go-to listen", "\U{1F399}\U{FE0F}", Midnight, [
        CategoryField("podcast", "Podcast Name", Text, Some("Enter podcast name"), Some(true)),
        CategoryField("host", "Host(s)", Text, Some("Host names"), None),
        CategoryField("episode", "Favorite Episode", Text, Some("Episode title"), None)
      ]),
      Subcategory("top-book", "Book of the Year", "Pages that changed you", "\U{1F4DA}", Forest, [
        CategoryField("title", "Book Title", Text, Some("Enter book title"), Some(true)),
        CategoryField("author", "Author", Text, Some("Author name"), None),
        CategoryField("quote", "Favorite Quote", TextArea, Some("A line that resonated"), None),
        CategoryField("image", "Book Cover", Image, None, None)
      ]),
      Subcategory("top-game", "Game of the Year", "Hours well spent", "\U{1F3AE}", Berry, [
        CategoryField("game", "Game Title", Text, Some("Enter game name"), Some(true)),
        CategoryField("hours", "Hours Played", Number, Some("200"), None),
        CategoryField("achievement", "Best Achievement", Text, Some("Your proudest moment"), None),
        CategoryField("image", "Game Art", Image, None, None)
      ])
    ])

  const FoodCategory: MainCategory :=
    MainCategory("food", "Food & Dining", "Culinary highlights of your year", "\U{1F355}", Sunset, [
      Subcategory("food-ate-most", "Most Eaten Dish", "Your comfort food of 2026", "\U{1F355}", Sunset, [
        CategoryField("food", "The Food", Text, Some("Pizza, Sushi, etc."), Some(true)),
        CategoryField("times", "Times Eaten", Number, Some("52"), None),
        CategoryField("image", "Food Photo", Image, None, None)
      ]),
      Subcategory("best-home-meal", "Best Home-Cooked Meal", "Kitchen masterpiece", "\U{1F468}\U{200D}\U{1F373}", Golden, [
        CategoryField("dish", "Dish Name", Text, Some("What you cooked"), Some(true)),
        CategoryField("occasion", "The Occasion", TextArea, Some("What was the occasion?"), None),
        CategoryField("image", "Meal Photo", Image, None, None)
      ]),
      Subcategory("favorite-restaurant", "Favorite Restaurant", "Your go-to dining spot", "\U{1F37D}\U{FE0F}", Fire, [
        CategoryField("restaurant", "Restaurant Name", Text, Some("Restaurant name"), Some(true)),
        CategoryField("dish", "Signature Dish", Text, Some("What you always order"), None),
        CategoryField("visits", "Times Visited", Number, Some("12"), None),
        CategoryField("image", "Restaurant Photo", Image, None, None)
      ]),
      Subcategory("best-coffee", "Best Coffee Spot", "Your caffeine fix", "\U{2615}", Midnight, [
        CategoryField("cafe", "Cafe Name", Text, Some("Cafe name"), Some(true)),
        CategoryField("drink", "Go-To Order", Text, Some("Your usual order"), None),
        CategoryField("cups", "Cups Consumed", Number, Some("365"), None)
      ]),
      Subcategory("best-snack", "Snack of the Year", "Late-night cravings", "\U{1F37F}", Berry, [
        CategoryField("snack", "Snack Name", Text, Some("Your favorite snack"), Some(true)),
        CategoryField("when", "Best Time to Eat", Text, Some("Midnight, movies, etc."), None),
        CategoryField("image", "Snack Photo", Image, None, None)
      ])
    ])

  const LifestyleCategory: MainCategory :=
    MainCategory("lifestyle", "Lifestyle", "Fashion, purchases and self-care", "\U{2728}", Aurora, [
      Subcategory("best-purchase", "Best Purchase", "Money well spent", "\U{1F6CD}\U{FE0F}", Golden, [
        CategoryField("item", "What You Bought", Text, Some("Item name"), Some(true)),
        CategoryField("reason", "Why It Was Worth It", TextArea, Some("How it changed your life"), None),
        CategoryField("image", "Product Photo", Image, None, None)
      ]),
      Subcategory("favorite-outfit", "Favorite Outfit", "Your fashion moment", "\U{1F454}", Magenta, [
        CategoryField("description", "Outfit Description", TextArea, Some("Describe the look"), Some(true)),
        CategoryField("occasion", "The Occasion", Text, Some("Where you wore it"), None),
        CategoryField("image", "Outfit Photo", Image, None, None)
      ]),
      Subcategory("self-care-moment", "Self-Care Moment", "Taking care of you", "\U{1F9D8}", Aurora, [
        CategoryField("activity", "Self-Care Activity", Text, Some("Spa day, meditation, etc."), Some(true)),
        CategoryField("feeling", "How It Made You Feel", TextArea, Some("The impact it had"), None),
        CategoryField("image", "Moment Photo", Image, None, None)
      ]),
      Subcategory("best-hobby", "Hobby of the Year", "What you loved doing", "\U{1F3A8}", Cosmic, [
        CategoryField("hobby", "The Hobby", Text, Some("Painting, gaming, etc."), Some(true)),
        CategoryField("hours", "Hours Spent", Number, Some("100"), None),
        CategoryField("achievement", "Best Achievement", TextArea, Some("What you accomplished"), None),
        CategoryField("image", "Hobby Photo", Image, None, None)
      ])
    ])

  const HabitsCategory: MainCategory :=
    MainCategory("habits", "Habits & Wellness", "The routines that shaped you", "\U{1F4AA}", Forest, [
      Subcategory("top-habits", "Top Habits", "Daily routines that stuck", "\U{1F4AA}", Aurora, [
        CategoryField("habit1", "Habit #1", Text, Some("e.g., Morning workout"), Some(true)),
        CategoryField("habit2", "Habit #2", Text, Some("e.g., Reading"), None),
        CategoryField("habit3", "Habit #3", Text, Some("e.g., Meditation"), None),
        CategoryField("streak", "Longest Streak (days)", Number, Some("30"), None)
      ]),
      Subcategory("fitness-stats", "Fitness Stats", "Your physical achievements", "\U{1F3C3}", Fire, [
        CategoryField("activity", "Main Activity", Text, Some("Running, gym, yoga"), Some(true)),
        CategoryField("workouts", "Total Workouts", Number, Some("150"), None),
        CategoryField("distance", "Distance (km/miles)", Number, Some("500"), None),
        CategoryField("milestone", "Biggest Milestone", Text, Some("Your proudest achievement"), None)
      ]),
      Subcategory("sleep-stats", "Sleep Stats", "Your rest recap", "\U{1F634}", Midnight, [
        CategoryField("avgSleep", "Avg Hours/Night", Number, Some("7.5"), None),
        CategoryField("bestNight", "Best Night of Sleep", Text, Some("Date or occasion"), None),
        CategoryField("sleepGoal", "Sleep Goal Achieved", Text, Some("Yes/No or percentage"), None)
      ]),
      Subcategory("mindfulness", "Mindfulness Journey", "Mental wellness wins", "\U{1F9E0}", Cosmic, [
        CategoryField("practice", "Main Practice", Text, Some("Meditation, journaling"), Some(true)),
        CategoryField("sessions", "Total Sessions", Number, Some("200"), None),
        CategoryField("insight", "Biggest Insight", TextArea, Some("What you learned about yourself"), None)
      ])
    ])

  const AchievementsCategory: MainCategory :=
    MainCategory("achievements", "Achievements", "Celebrate your wins", "\U{1F3C6}", Golden, [
      Subcategory("personal-award", "Personal Award", "Crown yourself", "\U{1F3C6}", Golden, [
        CategoryField("award", "Award Title", Text, Some("e.g., Most Improved"), Some(true)),
        CategoryField("reason", "Why You Earned It", TextArea, Some("What did you accomplish?"), None),
        CategoryField("image", "Your Photo", Image, None, None)
      ]),
      Subcategory("highlights-2026", "Highlights of 2026", "Your year at a glance", "\U{2728}", Golden, [
        CategoryField("highlight1", "Highlight #1", Text, Some("Your biggest win"), Some(true)),
        CategoryField("highlight2", "Highlight #2", Text, Some("A special moment"), None),
        CategoryField("highlight3", "Highlight #3", Text, Some("An achievement"), None)
      ]),
      Subcategory("biggest-win", "Biggest Win", "Your proudest moment", "\U{1F3AF}", Fire, [
        CategoryField("win", "The Win", Text, Some("What you achieved"), Some(true)),
        CategoryField("journey", "The Journey", TextArea, Some("How you got there"), None),
        CategoryField("feeling", "How It Felt", TextArea, Some("The emotion of winning"), None),
        CategoryField("image", "Celebration Photo", Image, None, None)
      ]),
      Subcategory("learning-milestone", "Learning Milestone", "New skills acquired", "\U{1F4D6}", Ocean, [
        CategoryField("skill", "Skill Learned", Text, Some("Coding, language, etc."), Some(true)),
        CategoryField("hours", "Hours Invested", Number, Some("100"), None),
        CategoryField("progress", "Current Level", Text, Some("Beginner to expert scale"), None)
      ]),
      Subcategory("goal-achieved", "Goal Achieved", "Dreams turned reality", "\U{1F389}", Magenta, [
        CategoryField("goal", "The Goal", Text, Some("What you set out to do"), Some(true)),
        CategoryField("timeframe", "Time to Achieve", Text, Some("3 months, 1 year, etc."), None),
        CategoryField("lesson", "Key Lesson", TextArea, Some("What you learned"), None)
      ])
    ])

  const TravelCategory: MainCategory :=
    MainCategory("travel", "Travel", "Adventures and destinations", "\U{2708}\U{FE0F}", Ocean, [
      Subcategory("best-trip", "Best Trip", "Adventure of the year", "\U{2708}\U{FE0F}", Ocean, [
        CategoryField("destination", "Destination", Text, Some("City, country"), Some(true)),
        CategoryField("highlight", "Trip Highlight", TextArea, Some("Best moment of the trip"), None),
        CategoryField("duration", "Duration (days)", Number, Some("7"), None),
        CategoryField("image", "Trip Photo", Image, None, None)
      ]),
      Subcategory("most-visited-place", "Most Visited Place", "Your frequent destination", "\U{1F4CD}", Sunset, [
        CategoryField("place", "The Place", Text, Some("Park, city, cafe"), Some(true)),
        CategoryField("visits", "Times Visited", Number, Some("20"), None),
        CategoryField("why", "Why You Keep Going", TextArea, Some("What draws you back"), None),
        CategoryField("image", "Place Photo", Image, None, None)
      ]),
      Subcategory("bucket-list", "Bucket List Check", "Dreams you lived", "\U{2705}", Aurora, [
        CategoryField("item", "Bucket List Item", Text, Some("What you crossed off"), Some(true)),
        CategoryField("experience", "The Experience", TextArea, Some("How it felt to do it"), None),
        CategoryField("image", "Moment Photo", Image, None, None)
      ]),
      Subcategory("road-trip", "Best Road Trip", "Miles of memories", "\U{1F697}", Golden, [
        CategoryField("route", "The Route", Text, Some("From - To"), Some(true)),
        CategoryField("distance", "Distance (km/miles)", Number, Some("500"), None),
        CategoryField("bestStop", "Best Stop", Text, Some("Favorite place along the way"), None),
        CategoryField("image", "Road Trip Photo", Image, None, None)
      ])
    ])

  const RelationshipsCategory: MainCategory :=
    MainCategory("relationships", "Relationships", "Love and connection", "\U{1F495}", Berry, [
      Subcategory("relationship-milestone", "Relationship Milestone", "Love celebrated", "\U{1F495}", Berry, [
        CategoryField("milestone", "The Milestone", Text, Some("Anniversary, engagement"), Some(true)),
        CategoryField("partner", "With Whom", Text, Some("Their name"), None),
        CategoryField("memory", "Special Memory", TextArea, Some("What made it special"), None),
        CategoryField("image", "Memory Photo", Image, None, None)
      ]),
      Subcategory("family-moment", "Family Moment", "Precious family time", "\U{1F468}\U{200D}\U{1F469}\U{200D}\U{1F467}\U{200D}\U{1F466}", Golden, [
        CategoryField("moment", "The Moment", Text, Some("Reunion, celebration"), Some(true)),
        CategoryField("who", "Who Was There", TextArea, Some("Family members present"), None),
        CategoryField("feeling", "Why It Mattered", TextArea, Some("The significance"), None),
        CategoryField("image", "Family Photo", Image, None, None)
      ]),
      Subcategory("pet-of-year", "Pet of the Year", "Furry friend appreciation", "\U{1F43E}", Sunset, [
        CategoryField("name", "Pet Name", Text, Some("Your pet\'s name"), Some(true)),
        CategoryField("type", "Type of Pet", Text, Some("Dog, cat, etc."), None),
        CategoryField("trait", "Best Trait", Text, Some("What makes them special"), None),
        CategoryField("image", "Pet Photo", Image, None, None)
      ])
    ])

  const EducationCategory: MainCategory :=
    MainCategory("education", "Education", "Learning and growth", "\U{1F393}", Midnight, [
      Subcategory("course-completed", "Course Completed", "Knowledge gained", "\U{1F4DA}", Ocean, [
        CategoryField("course", "Course Name", Text, Some("Course title"), Some(true)),
        CategoryField("platform", "Platform", Text, Some("Where you took it"), None),
        CategoryField("takeaway", "Key Takeaway", TextArea, Some("Most valuable lesson"), None)
      ]),
      Subcategory("academic-achievement", "Academic Achievement", "School/University wins", "\U{1F393}", Midnight, [
        CategoryField("achievement", "The Achievement", Text, Some("Degree, grade, award"), Some(true)),
        CategoryField("subject", "Subject/Field", Text, Some("Area of study"), None),
        CategoryField("effort", "The Effort", TextArea, Some("What it took to achieve"), None),
        CategoryField("image", "Achievement Photo", Image, None, None)
      ]),
      Subcategory("life-lesson", "Life Lesson Learned", "Wisdom gained", "\U{1F4A1}", Cosmic, [
        CategoryField("lesson", "The Lesson", Text, Some("What you learned"), Some(true)),
        CategoryField("context", "How You Learned It", TextArea, Some("The situation or experience"), None),
        CategoryField("application", "How You\'ll Apply It", TextArea, Some("Going forward"), None)
      ])
    ])

  const MiscellaneousCategory: MainCategory :=
    MainCategory("miscellaneous", "Miscellaneous", "Everything else worth celebrating", "\U{1F3B2}", Fire, [
      Subcategory("funniest-memory", "Funniest Memory", "Laughs of the year", "\U{1F602}", Sunset, [
        CategoryField("memory", "The Memory", TextArea, Some("What happened"), Some(true)),
        CategoryField("who", "Who Was Involved", Text, Some("The characters"), None),
        CategoryField("image", "Funny Photo", Image, None, None)
      ]),
      Subcategory("most-embarrassing", "Most Embarrassing Moment", "Laugh at yourself", "\U{1F648}", Berry, [
        CategoryField("moment", "What Happened", TextArea, Some("The cringe-worthy moment"), Some(true)),
        CategoryField("reaction", "Your Reaction", Text, Some("How you handled it"), None),
        CategoryField("lesson", "Silver Lining", Text, Some("What you can laugh about now"), None)
      ]),
      Subcategory("random-flex", "Random Flex", "Something you\'re proud of", "\U{1F4AA}", Magenta, [
        CategoryField("flex", "The Flex", Text, Some("Brag a little"), Some(true)),
        CategoryField("proof", "The Proof", TextArea, Some("Back it up"), None),
        CategoryField("image", "Flex Photo", Image, None, None)
      ]),
      Subcategory("guilty-pleasure", "Guilty Pleasure", "No judgment zone", "\U{1F92B}", Cosmic, [
        CategoryField("pleasure", "The Pleasure", Text, Some("Your guilty pleasure"), Some(true)),
        CategoryField("frequency", "How Often", Text, Some("Daily, weekly, etc."), None),
        CategoryField("justification", "Your Justification", TextArea, Some("Why it\'s okay"), None)
      ])
    ])

  /** The static catalog, in display order. */
  const MainCategories: seq<MainCategory> := [
    PeopleCategory, EntertainmentCategory, FoodCategory, LifestyleCategory, HabitsCategory, AchievementsCategory, TravelCategory, RelationshipsCategory, EducationCategory, MiscellaneousCategory]

  /** The subcategory lists of `mains`, concatenated in order (`flatMap`). */
  function Flatten(mains: seq<MainCategory>): seq<Subcategory>
  {
    if mains == [] then [] else mains[0].subcategories + Flatten(mains[1..])
  }

  /** `CATEGORIES`: every subcategory of the catalog, in catalog order. */
  const Categories: seq<Subcategory> := Flatten(MainCategories)

  /** The ids of a list of subcategories, in order. */
  function Ids(subs: seq<Subcategory>): (r: seq<string>)
    ensures |r| == |subs|
    ensures forall i :: 0 <= i < |subs| ==> r[i] == subs[i].id
  {
    seq(|subs|, i requires 0 <= i < |subs| => subs[i].id)
  }

  predicate DistinctStrings(s: seq<string>) {
    forall i, j :: 0 <= i < j < |s| ==> s[i] != s[j]
  }

  /** The first subcategory of `subs` with the given id (`Array.find`). */
  function FindById(subs: seq<Subcategory>, id: string): (r: Option<Subcategory>)
    ensures r.None? <==> id !in Ids(subs)
    ensures r.Some? ==> r.value.id == id
    ensures r.Some? ==> exists k :: 0 <= k < |subs| && subs[k] == r.value && id !in Ids(subs[..k])
  {
    if subs == [] then None
    else if subs[0].id == id then
      assert Ids(subs[..0]) == [];
      Some(subs[0])
    else
      var r := FindById(subs[1..], id);
      assert Ids(subs) == [subs[0].id] + Ids(subs[1..]);
      if r.Some? then
        var k :| 0 <= k < |subs[1..]| && subs[1..][k] == r.value && id !in Ids(subs[1..][..k]);
        assert Ids(subs[..k + 1]) == [subs[0].id] + Ids(subs[1..][..k]);
        r
      else r
  }

  /** `getSubcategoryById` over a catalog: the main categories are searched in
      order, and within the first one that holds the id, its first match. */
  function FindSubcategory(mains: seq<MainCategory>, id: string): Option<Subcategory>
  {
    if mains == [] then None
    else
      match FindById(mains[0].subcategories, id)
      case Some(s) => Some(s)
      case None => FindSubcategory(mains[1..], id)
  }

  /** `getMainCategoryBySubcategoryId` over a catalog: the first main category
      one of whose subcategories has the id. */
  function FindMainCategory(mains: seq<MainCategory>, id: string): Option<MainCategory>
  {
    if mains == [] then None
    else if id in Ids(mains[0].subcategories) then Some(mains[0])
    else FindMainCategory(mains[1..], id)
  }

  /** The main category with the given id (`MAIN_CATEGORIES.find`), as the
      achievement criteria look one up. */
  function FindMainById(mains: seq<MainCategory>, id: string): (r: Option<MainCategory>)
    ensures r.Some? ==> r.value in mains && r.value.id == id
    ensures r.None? ==> forall m :: m in mains ==> m.id != id
  {
    if mains == [] then None
    else if mains[0].id == id then Some(mains[0])
    else FindMainById(mains[1..], id)
  }

  function GetSubcategoryById(id: string): Option<Subcategory> {
    FindSubcategory(MainCategories, id)
  }

  function GetMainCategoryBySubcategoryId(id: string): Option<MainCategory> {
    FindMainCategory(MainCategories, id)
  }

  lemma {:induction false} IdsAppend(a: seq<Subcategory>, b: seq<Subcategory>)
    ensures Ids(a + b) == Ids(a) + Ids(b)
  {
  }

  /** A subcategory id occurs in the flattened list exactly when some main
      category lists it. */
  lemma {:induction false} FlattenIds(mains: seq<MainCategory>, id: string)
    ensures id in Ids(Flatten(mains)) <==> exists m :: m in mains && id in Ids(m.subcategories)
  {
    if mains != [] {
      FlattenIds(mains[1..], id);
      IdsAppend(mains[0].subcategories, Flatten(mains[1..]));
      assert forall m :: m in mains <==> m == mains[0] || m in mains[1..];
    }
  }

  /** A first match in the front part of a concatenation stays first. */
  lemma FirstInFront(subs: seq<Subcategory>, rest: seq<Subcategory>, k: nat, id: string)
    requires k < |subs| && id !in Ids(subs[..k])
    ensures (subs + rest)[k] == subs[k] && id !in Ids((subs + rest)[..k])
  {
    assert (subs + rest)[..k] == subs[..k];
  }

  /** A first match in the back part, with no match in the front part, stays
      first. */
  lemma FirstInBack(subs: seq<Subcategory>, rest: seq<Subcategory>, k: nat, id: string)
    requires k < |rest| && id !in Ids(subs) && id !in Ids(rest[..k])
    ensures (subs + rest)[|subs| + k] == rest[k] && id !in Ids((subs + rest)[..|subs| + k])
  {
    assert (subs + rest)[..|subs| + k] == subs + rest[..k];
    IdsAppend(subs, rest[..k]);
  }

  /** `getSubcategoryById` finds the FIRST subcategory with that id in catalog
      order, and finds nothing exactly when no main category lists the id. */
  lemma {:induction false} FindSubcategoryIsFirst(mains: seq<MainCategory>, id: string)
    ensures FindSubcategory(mains, id).None? <==> id !in Ids(Flatten(mains))
    ensures FindSubcategory(mains, id).Some? ==>
      exists k :: 0 <= k < |Flatten(mains)| && Flatten(mains)[k] == FindSubcategory(mains, id).value
                  && id !in Ids(Flatten(mains)[..k])
  {
    if mains != [] {
      var subs, rest := mains[0].subcategories, Flatten(mains[1..]);
      assert Flatten(mains) == subs + rest;
      IdsAppend(subs, rest);
      FindSubcategoryIsFirst(mains[1..], id);
      var found := FindById(subs, id);
      if found.Some? {
        assert FindSubcategory(mains, id) == found;
        var k :| 0 <= k < |subs| && subs[k] == found.value && id !in Ids(subs[..k]);
        FirstInFront(subs, rest, k, id);
      } else {
        assert FindSubcategory(mains, id) == FindSubcategory(mains[1..], id);
        if FindSubcategory(mains[1..], id).Some? {
          var k :| 0 <= k < |rest| && rest[k] == FindSubcategory(mains, id).value && id !in Ids(rest[..k]);
          FirstInBack(subs, rest, k, id);
          assert |subs| + k < |Flatten(mains)|;
        }
      }
    }
  }

  /** The two lookups are defined on the same ids, and the subcategory found
      belongs to the main category found. */
  lemma {:induction false} LookupsAgree(mains: seq<MainCategory>, id: string)
    ensures FindSubcategory(mains, id).Some? <==> FindMainCategory(mains, id).Some?
    ensures FindSubcategory(mains, id).Some? ==>
      FindSubcategory(mains, id).value.id == id &&
      FindSubcategory(mains, id).value in FindMainCategory(mains, id).value.subcategories
  {
    if mains != [] {
      var subs := mains[0].subcategories;
      var found := FindById(subs, id);
      if found.Some? {
        var k :| 0 <= k < |subs| && subs[k] == found.value && id !in Ids(subs[..k]);
        assert FindSubcategory(mains, id) == found;
        assert FindMainCategory(mains, id) == Some(mains[0]);
      } else {
        LookupsAgree(mains[1..], id);
        assert FindSubcategory(mains, id) == FindSubcategory(mains[1..], id);
        assert FindMainCategory(mains, id) == FindMainCategory(mains[1..], id);
      }
    }
  }

  /** `getMainCategoryBySubcategoryId` returns a main category that lists the
      id, and nothing exactly when there is none. */
  lemma {:induction false} FindMainCategoryCorrect(mains: seq<MainCategory>, id: string)
    ensures FindMainCategory(mains, id).Some? ==>
      FindMainCategory(mains, id).value in mains && id in Ids(FindMainCategory(mains, id).value.subcategories)
    ensures FindMainCategory(mains, id).None? <==> forall m :: m in mains ==> id !in Ids(m.subcategories)
  {
    if mains != [] {
      FindMainCategoryCorrect(mains[1..], id);
      assert forall m :: m in mains <==> m == mains[0] || m in mains[1..];
    }
  }

  /** No string occurs twice (checked head first, which suits literal lists). */
  predicate NoDuplicates(s: seq<string>) {
    s == [] || (s[0] !in s[1..] && NoDuplicates(s[1..]))
  }

  /** The ids of a field list, in order. */
  function FieldIds(fields: seq<CategoryField>): (r: seq<string>)
    ensures |r| == |fields|
    ensures forall i :: 0 <= i < |fields| ==> r[i] == fields[i].id
  {
    seq(|fields|, i requires 0 <= i < |fields| => fields[i].id)
  }

  /** Every subcategory of the list has unique field ids. */
  predicate FieldIdsUnique(subs: seq<Subcategory>) {
    forall s :: s in subs ==> DistinctStrings(FieldIds(s.fields))
  }

  predicate Disjoint(a: seq<string>, b: seq<string>) {
    forall x :: x in a ==> x !in b
  }

  /** The subcategory id list of each main category, in order. */
  function IdGroups(mains: seq<MainCategory>): (r: seq<seq<string>>)
    ensures |r| == |mains|
    ensures forall i :: 0 <= i < |mains| ==> r[i] == Ids(mains[i].subcategories)
  {
    seq(|mains|, i requires 0 <= i < |mains| => Ids(mains[i].subcategories))
  }

  /** The lists of `groups`, concatenated in order. */
  function Concat(groups: seq<seq<string>>): seq<string>
  {
    if groups == [] then [] else groups[0] + Concat(groups[1..])
  }

  lemma FlattenStep(mains: seq<MainCategory>)
    requires mains != []
    ensures Flatten(mains) == mains[0].subcategories + Flatten(mains[1..])
    ensures Ids(Flatten(mains)) == Ids(mains[0].subcategories) + Ids(Flatten(mains[1..]))
  {
    IdsAppend(mains[0].subcategories, Flatten(mains[1..]));
  }

  /** The ids of the flattened list are the id groups, concatenated. */
  lemma {:induction false} FlattenConcat(mains: seq<MainCategory>)
    ensures Ids(Flatten(mains)) == Concat(IdGroups(mains))
  {
    if mains != [] {
      FlattenConcat(mains[1..]);
      FlattenStep(mains);
      assert IdGroups(mains)[1..] == IdGroups(mains[1..]);
    }
  }

  /** No string of `a` occurs in any of `groups`. */
  predicate DisjointFromAll(a: seq<string>, groups: seq<seq<string>>) {
    groups == [] || (Disjoint(a, groups[0]) && DisjointFromAll(a, groups[1..]))
  }

  /** No group repeats a string, and no string of a group occurs in a later
      group. */
  predicate GroupsDistinct(groups: seq<seq<string>>) {
    groups == [] ||
    (&& NoDuplicates(groups[0])
     && DisjointFromAll(groups[0], groups[1..])
     && GroupsDistinct(groups[1..]))
  }

  lemma {:induction false} DisjointFromAllConcat(a: seq<string>, groups: seq<seq<string>>)
    requires DisjointFromAll(a, groups)
    ensures Disjoint(a, Concat(groups))
  {
    if groups != [] {
      DisjointFromAllConcat(a, groups[1..]);
    }
  }

  lemma {:induction false} NoDuplicatesDistinct(s: seq<string>)
    ensures NoDuplicates(s) <==> DistinctStrings(s)
  {
    if s != [] {
      NoDuplicatesDistinct(s[1..]);
      if DistinctStrings(s) {
        assert forall j :: 0 <= j < |s[1..]| ==> s[1..][j] == s[j + 1];
      }
    }
  }

  lemma {:induction false} GroupsDistinctConcat(groups: seq<seq<string>>)
    requires GroupsDistinct(groups)
    ensures DistinctStrings(Concat(groups))
  {
    if groups != [] {
      var a, b := groups[0], Concat(groups[1..]);
      GroupsDistinctConcat(groups[1..]);
      DisjointFromAllConcat(a, groups[1..]);
      NoDuplicatesDistinct(a);
      forall i, j | 0 <= i < j < |a + b| ensures (a + b)[i] != (a + b)[j] {
        if j < |a| {
        } else if i < |a| {
          assert (a + b)[i] in a && (a + b)[j] in b;
        } else {
          assert (a + b)[i] == b[i - |a|] && (a + b)[j] == b[j - |a|];
        }
      }
    }
  }

  lemma {:induction false} FieldIdsUniqueFlatten(mains: seq<MainCategory>)
    requires forall i :: 0 <= i < |mains| ==> FieldIdsUnique(mains[i].subcategories)
    ensures FieldIdsUnique(Flatten(mains))
  {
    if mains != [] {
      assert forall i :: 0 <= i < |mains| - 1 ==> mains[1..][i] == mains[i + 1];
      FieldIdsUniqueFlatten(mains[1..]);
      FlattenStep(mains);
    }
  }

  lemma PeopleCategoryFieldIdsUnique0()
    ensures DistinctStrings(FieldIds(PeopleCategory.subcategories[0].fields))
  {
    var ids := FieldIds(PeopleCategory.subcategories[0].fields);
    assert ids == ["name", "memory", "image"];
    assert NoDuplicates(ids[3..]);
    assert NoDuplicates(ids[2..]);
    assert NoDuplicates(ids[1..]);
    assert NoDuplicates(ids[0..]);
    NoDuplicatesDistinct(ids);
  }

  lemma PeopleCategoryFieldIdsUnique1()
    ensures DistinctStrings(FieldIds(PeopleCategory.subcategories[1].fields))
  {
    var ids := FieldIds(PeopleCategory.subcategories[1].fields);
    assert ids == ["name", "lesson", "image"];
    assert NoDuplicates(ids[3..]);
    assert NoDuplicates(ids[2..]);
    assert NoDuplicates(ids[1..]);
    assert NoDuplicates(ids[0..]);
    NoDuplicatesDistinct(ids);
  }

  lemma PeopleCategoryFieldIdsUnique2()
    ensures DistinctStrings(FieldIds(PeopleCategory.subcategories[2].fields))
  {
    var ids := FieldIds(PeopleCategory.subcategories[2].fields);
    assert ids == ["name", "callCount", "image"];
    assert NoDuplicates(ids[3..]);
    assert NoDuplicates(ids[2..]);
    assert NoDuplicates(ids[1..]);
    assert NoDuplicates(ids[0..]);
    NoDuplicatesDistinct(ids);
  }

  lemma PeopleCategoryFieldIdsUnique3()
    ensures DistinctStrings(FieldIds(PeopleCategory.subcategories[3].fields))
  {
    var ids := FieldIds(PeopleCategory.subcategories[3].fields);
    assert ids == ["friend1", "friend2", "friend3", "friend4", "friend5"];
    assert NoDuplicates(ids[5..]);
    assert NoDuplicates(ids[4..]);
    assert NoDuplicates(ids[3..]);
    assert NoDuplicates(ids[2..]);
    assert NoDuplicates(ids[1..]);
    assert NoDuplicates(ids[0..]);
    NoDuplicatesDistinct(ids);
  }

  lemma PeopleCategoryFieldIdsUnique4()
    ensures DistinctStrings(FieldIds(PeopleCategory.subcategories[4].fields))
  {
    var ids := FieldIds(PeopleCategory.subcategories[4].fields);
    assert ids == ["name", "chatName", "messages", "image"];
    assert NoDuplicates(ids[4..]);
    assert NoDuplicates(ids[3..]);
    assert NoDuplicates(ids[2..]);
    assert NoDuplicates(ids[1..]);
    assert NoDuplicates(ids[0..]);
    NoDuplicatesDistinct(ids);
  }

  lemma PeopleCategoryFieldIdsUnique5()
    ensures DistinctStrings(FieldIds(PeopleCategory.subcategories[5].fields))
  {
    var ids := FieldIds(PeopleCategory.subcategories[5].fields);
    assert ids == ["name", "howMet", "image"];
    assert NoDuplicates(ids[3..]);
    assert NoDuplicates(ids[2..]);
    assert NoDuplicates(ids[1..]);
    assert NoDuplicates(ids[0..]);
    NoDuplicatesDistinct(ids);
  }

  lemma PeopleCategoryFieldIdsUnique()
    ensures FieldIdsUnique(PeopleCategory.subcategories)
  {
    PeopleCategoryFieldIdsUnique0();
    PeopleCategoryFieldIdsUnique1();
    PeopleCategoryFieldIdsUnique2();
    PeopleCategoryFieldIdsUnique3();
    PeopleCategoryFieldIdsUnique4();
    PeopleCategoryFieldIdsUnique5();
  }

  lemma EntertainmentCategoryFieldIdsUnique0()
    ensures DistinctStrings(FieldIds(EntertainmentCategory.subcategories[0].fields))
  {
    var ids := FieldIds(EntertainmentCategory.subcategories[0].fields);
    assert ids == ["title", "quote", "image"];
    assert NoDuplicates(ids[3..]);
    assert NoDuplicates(ids[2..]);
    assert NoDuplicates(ids[1..]);
    assert NoDuplicates(ids[0..]);
    NoDuplicatesDistinct(ids);
  }

  lemma EntertainmentCategoryFieldIdsUnique1()
    ensures DistinctStrings(FieldIds(EntertainmentCategory.subcategories[1].fields))
  {
    var ids := FieldIds(EntertainmentCategory.subcategories[1].fields);
    assert ids == ["song", "artist", "plays"];
    assert NoDuplicates(ids[3..]);
    assert NoDuplicates(ids[2..]);
    assert NoDuplicates(ids[1..]);
    assert NoDuplicates(ids[0..]);
    NoDuplicatesDistinct(ids);
  }

  lemma EntertainmentCategoryFieldIdsUnique2()
    ensures DistinctStrings(FieldIds(EntertainmentCategory.subcategories[2].fields))
  {
    var ids := FieldIds(EntertainmentCategory.subcategories[2].fields);
    assert ids == ["title", "episodes", "character", "image"];
    assert NoDuplicates(ids[4..]);
    assert NoDuplicates(ids[3..]);
    assert NoDuplicates(ids[2..]);
    assert NoDuplicates(ids[1..]);
    assert NoDuplicates(ids[0..]);
    NoDuplicatesDistinct(ids);
  }

  lemma EntertainmentCategoryFieldIdsUnique3()
    ensures DistinctStrings(FieldIds(EntertainmentCategory.subcategories[3].fields))
  {
    var ids := FieldIds(EntertainmentCategory.subcategories[3].fields);
    assert ids == ["artist", "venue", "highlight", "image"];
    assert NoDuplicates(ids[4..]);
    assert NoDuplicates(ids[3..]);
    assert NoDuplicates(ids[2..]);
    assert NoDuplicates(ids[1..]);
    assert NoDuplicates(ids[0..]);
    NoDuplicatesDistinct(ids);
  }

  lemma EntertainmentCategoryFieldIdsUnique4()
    ensures DistinctStrings(FieldIds(EntertainmentCategory.subcategories[4].fields))
  {
    var ids := FieldIds(EntertainmentCategory.subcategories[4].fields);
    assert ids == ["podcast", "host", "episode"];
    assert NoDuplicates(ids[3..]);
    assert NoDuplicates(ids[2..]);
    assert NoDuplicates(ids[1..]);
    assert NoDuplicates(ids[0..]);
    NoDuplicatesDistinct(ids);
  }

  lemma EntertainmentCategoryFieldIdsUnique5()
    ensures DistinctStrings(FieldIds(EntertainmentCategory.subcategories[5].fields))
  {
    var ids := FieldIds(EntertainmentCategory.subcategories[5].fields);
    assert ids == ["title", "author", "quote", "image"];
    assert NoDuplicates(ids[4..]);
    assert NoDuplicates(ids[3..]);
    assert NoDuplicates(ids[2..]);
    assert NoDuplicates(ids[1..]);
    assert NoDuplicates(ids[0..]);
    NoDuplicatesDistinct(ids);
  }

  lemma EntertainmentCategoryFieldIdsUnique6()
    ensures DistinctStrings(FieldIds(EntertainmentCategory.subcategories[6].fields))
  {
    var ids := FieldIds(EntertainmentCategory.subcategories[6].fields);
    assert ids == ["game", "hours", "achievement", "image"];
    assert NoDuplicates(ids[4..]);
    assert NoDuplicates(ids[3..]);
    assert NoDuplicates(ids[2..]);
    assert NoDuplicates(ids[1..]);
    assert NoDuplicates(ids[0..]);
    NoDuplicatesDistinct(ids);
  }

  lemma EntertainmentCategoryFieldIdsUnique()
    ensures FieldIdsUnique(EntertainmentCategory.subcategories)
  {
    EntertainmentCategoryFieldIdsUnique0();
    EntertainmentCategoryFieldIdsUnique1();
    EntertainmentCategoryFieldIdsUnique2();
    EntertainmentCategoryFieldIdsUnique3();
    EntertainmentCategoryFieldIdsUnique4();
    EntertainmentCategoryFieldIdsUnique5();
    EntertainmentCategoryFieldIdsUnique6();
  }

  lemma FoodCategoryFieldIdsUnique0()
    ensures DistinctStrings(FieldIds(FoodCategory.subcategories[0].fields))
  {
    var ids := FieldIds(FoodCategory.subcategories[0].fields);
    assert ids == ["food", "times", "image"];
    assert NoDuplicates(ids[3..]);
    assert NoDuplicates(ids[2..]);
    assert NoDuplicates(ids[1..]);
    assert NoDuplicates(ids[0..]);
    NoDuplicatesDistinct(ids);
  }

  lemma FoodCategoryFieldIdsUnique1()
    ensures DistinctStrings(FieldIds(FoodCategory.subcategories[1].fields))
  {
    var ids := FieldIds(FoodCategory.subcategories[1].fields);
    assert ids == ["dish", "occasion", "image"];
    assert NoDuplicates(ids[3..]);
    assert NoDuplicates(ids[2..]);
    assert NoDuplicates(ids[1..]);
    assert NoDuplicates(ids[0..]);
    NoDuplicatesDistinct(ids);
  }

  lemma FoodCategoryFieldIdsUnique2()
    ensures DistinctStrings(FieldIds(FoodCategory.subcategories[2].fields))
  {
    var ids := FieldIds(FoodCategory.subcategories[2].fields);
    assert ids == ["restaurant", "dish", "visits", "image"];
    assert NoDuplicates(ids[4..]);
    assert NoDuplicates(ids[3..]);
    assert NoDuplicates(ids[2..]);
    assert NoDuplicates(ids[1..]);
    assert NoDuplicates(ids[0..]);
    NoDuplicatesDistinct(ids);
  }

  lemma FoodCategoryFieldIdsUnique3()
    ensures DistinctStrings(FieldIds(FoodCategory.subcategories[3].fields))
  {
    var ids := FieldIds(FoodCategory.subcategories[3].fields);
    assert ids == ["cafe", "drink", "cups"];
    assert NoDuplicates(ids[3..]);
    assert NoDuplicates(ids[2..]);
    assert NoDuplicates(ids[1..]);
    assert NoDuplicates(ids[0..]);
    NoDuplicatesDistinct(ids);
  }

  lemma FoodCategoryFieldIdsUnique4()
    ensures DistinctStrings(FieldIds(FoodCategory.subcategories[4].fields))
  {
    var ids := FieldIds(FoodCategory.subcategories[4].fields);
    assert ids == ["snack", "when", "image"];
    assert NoDuplicates(ids[3..]);
    assert NoDuplicates(ids[2..]);
    assert NoDuplicates(ids[1..]);
    assert NoDuplicates(ids[0..]);
    NoDuplicatesDistinct(ids);
  }

  lemma FoodCategoryFieldIdsUnique()
    ensures FieldIdsUnique(FoodCategory.subcategories)
  {
    FoodCategoryFieldIdsUnique0();
    FoodCategoryFieldIdsUnique1();
    FoodCategoryFieldIdsUnique2();
    FoodCategoryFieldIdsUnique3();
    FoodCategoryFieldIdsUnique4();
  }

  lemma LifestyleCategoryFieldIdsUnique0()
    ensures DistinctStrings(FieldIds(LifestyleCategory.subcategories[0].fields))
  {
    var ids := FieldIds(LifestyleCategory.subcategories[0].fields);
    assert ids == ["item", "reason", "image"];
    assert NoDuplicates(ids[3..]);
    assert NoDuplicates(ids[2..]);
    assert NoDuplicates(ids[1..]);
    assert NoDuplicates(ids[0..]);
    NoDuplicatesDistinct(ids);
  }

  lemma LifestyleCategoryFieldIdsUnique1()
    ensures DistinctStrings(FieldIds(LifestyleCategory.subcategories[1].fields))
  {
    var ids := FieldIds(LifestyleCategory.subcategories[1].fields);
    assert ids == ["description", "occasion", "image"];
    assert NoDuplicates(ids[3..]);
    assert NoDuplicates(ids[2..]);
    assert NoDuplicates(ids[1..]);
    assert NoDuplicates(ids[0..]);
    NoDuplicatesDistinct(ids);
  }

  lemma LifestyleCategoryFieldIdsUnique2()
    ensures DistinctStrings(FieldIds(LifestyleCategory.subcategories[2].fields))
  {
    var ids := FieldIds(LifestyleCategory.subcategories[2].fields);
    assert ids == ["activity", "feeling", "image"];
    assert NoDuplicates(ids[3..]);
    assert NoDuplicates(ids[2..]);
    assert NoDuplicates(ids[1..]);
    assert NoDuplicates(ids[0..]);
    NoDuplicatesDistinct(ids);
  }

  lemma LifestyleCategoryFieldIdsUnique3()
    ensures DistinctStrings(FieldIds(LifestyleCategory.subcategories[3].fields))
  {
    var ids := FieldIds(LifestyleCategory.subcategories[3].fields);
    assert ids == ["hobby", "hours", "achievement", "image"];
    assert NoDuplicates(ids[4..]);
    assert NoDuplicates(ids[3..]);
    assert NoDuplicates(ids[2..]);
    assert NoDuplicates(ids[1..]);
    assert NoDuplicates(ids[0..]);
    NoDuplicatesDistinct(ids);
  }

  lemma LifestyleCategoryFieldIdsUnique()
    ensures FieldIdsUnique(LifestyleCategory.subcategories)
  {
    LifestyleCategoryFieldIdsUnique0();
    LifestyleCategoryFieldIdsUnique1();
    LifestyleCategoryFieldIdsUnique2();
    LifestyleCategoryFieldIdsUnique3();
  }

  lemma HabitsCategoryFieldIdsUnique0()
    ensures DistinctStrings(FieldIds(HabitsCategory.subcategories[0].fields))
  {
    var ids := FieldIds(HabitsCategory.subcategories[0].fields);
    assert ids == ["habit1", "habit2", "habit3", "streak"];
    assert NoDuplicates(ids[4..]);
    assert NoDuplicates(ids[3..]);
    assert NoDuplicates(ids[2..]);
    assert NoDuplicates(ids[1..]);
    assert NoDuplicates(ids[0..]);
    NoDuplicatesDistinct(ids);
  }

  lemma HabitsCategoryFieldIdsUnique1()
    ensures DistinctStrings(FieldIds(HabitsCategory.subcategories[1].fields))
  {
    var ids := FieldIds(HabitsCategory.subcategories[1].fields);
    assert ids == ["activity", "workouts", "distance", "milestone"];
    assert NoDuplicates(ids[4..]);
    assert NoDuplicates(ids[3..]);
    assert NoDuplicates(ids[2..]);
    assert NoDuplicates(ids[1..]);
    assert NoDuplicates(ids[0..]);
    NoDuplicatesDistinct(ids);
  }

  lemma HabitsCategoryFieldIdsUnique2()
    ensures DistinctStrings(FieldIds(HabitsCategory.subcategories[2].fields))
  {
    var ids := FieldIds(HabitsCategory.subcategories[2].fields);
    assert ids == ["avgSleep", "bestNight", "sleepGoal"];
    assert NoDuplicates(ids[3..]);
    assert NoDuplicates(ids[2..]);
    assert NoDuplicates(ids[1..]);
    assert NoDuplicates(ids[0..]);
    NoDuplicatesDistinct(ids);
  }

  lemma HabitsCategoryFieldIdsUnique3()
    ensures DistinctStrings(FieldIds(HabitsCategory.subcategories[3].fields))
  {
    var ids := FieldIds(HabitsCategory.subcategories[3].fields);
    assert ids == ["practice", "sessions", "insight"];
    assert NoDuplicates(ids[3..]);
    assert NoDuplicates(ids[2..]);
    assert NoDuplicates(ids[1..]);
    assert NoDuplicates(ids[0..]);
    NoDuplicatesDistinct(ids);
  }

  lemma HabitsCategoryFieldIdsUnique()
    ensures FieldIdsUnique(HabitsCategory.subcategories)
  {
    HabitsCategoryFieldIdsUnique0();
    HabitsCategoryFieldIdsUnique1();
    HabitsCategoryFieldIdsUnique2();
    HabitsCategoryFieldIdsUnique3();
  }

  lemma AchievementsCategoryFieldIdsUnique0()
    ensures DistinctStrings(FieldIds(AchievementsCategory.subcategories[0].fields))
  {
    var ids := FieldIds(AchievementsCategory.subcategories[0].fields);
    assert ids == ["award", "reason", "image"];
    assert NoDuplicates(ids[3..]);
    assert NoDuplicates(ids[2..]);
    assert NoDuplicates(ids[1..]);
    assert NoDuplicates(ids[0..]);
    NoDuplicatesDistinct(ids);
  }

  lemma AchievementsCategoryFieldIdsUnique1()
    ensures DistinctStrings(FieldIds(AchievementsCategory.subcategories[1].fields))
  {
    var ids := FieldIds(AchievementsCategory.subcategories[1].fields);
    assert ids == ["highlight1", "highlight2", "highlight3"];
    assert NoDuplicates(ids[3..]);
    assert NoDuplicates(ids[2..]);
    assert NoDuplicates(ids[1..]);
    assert NoDuplicates(ids[0..]);
    NoDuplicatesDistinct(ids);
  }

  lemma AchievementsCategoryFieldIdsUnique2()
    ensures DistinctStrings(FieldIds(AchievementsCategory.subcategories[2].fields))
  {
    var ids := FieldIds(AchievementsCategory.subcategories[2].fields);
    assert ids == ["win", "journey", "feeling", "image"];
    assert NoDuplicates(ids[4..]);
    assert NoDuplicates(ids[3..]);
    assert NoDuplicates(ids[2..]);
    assert NoDuplicates(ids[1..]);
    assert NoDuplicates(ids[0..]);
    NoDuplicatesDistinct(ids);
  }

  lemma AchievementsCategoryFieldIdsUnique3()
    ensures DistinctStrings(FieldIds(AchievementsCategory.subcategories[3].fields))
  {
    var ids := FieldIds(AchievementsCategory.subcategories[3].fields);
    assert ids == ["skill", "hours", "progress"];
    assert NoDuplicates(ids[3..]);
    assert NoDuplicates(ids[2..]);
    assert NoDuplicates(ids[1..]);
    assert NoDuplicates(ids[0..]);
    NoDuplicatesDistinct(ids);
  }

  lemma AchievementsCategoryFieldIdsUnique4()
    ensures DistinctStrings(FieldIds(AchievementsCategory.subcategories[4].fields))
  {
    var ids := FieldIds(AchievementsCategory.subcategories[4].fields);
    assert ids == ["goal", "timeframe", "lesson"];
    assert NoDuplicates(ids[3..]);
    assert NoDuplicates(ids[2..]);
    assert NoDuplicates(ids[1..]);
    assert NoDuplicates(ids[0..]);
    NoDuplicatesDistinct(ids);
  }

  lemma AchievementsCategoryFieldIdsUnique()
    ensures FieldIdsUnique(AchievementsCategory.subcategories)
  {
    AchievementsCategoryFieldIdsUnique0();
    AchievementsCategoryFieldIdsUnique1();
    AchievementsCategoryFieldIdsUnique2();
    AchievementsCategoryFieldIdsUnique3();
    AchievementsCategoryFieldIdsUnique4();
  }

  lemma TravelCategoryFieldIdsUnique0()
    ensures DistinctStrings(FieldIds(TravelCategory.subcategories[0].fields))
  {
    var ids := FieldIds(TravelCategory.subcategories[0].fields);
    assert ids == ["destination", "highlight", "duration", "image"];
    assert NoDuplicates(ids[4..]);
    assert NoDuplicates(ids[3..]);
    assert NoDuplicates(ids[2..]);
    assert NoDuplicates(ids[1..]);
    assert NoDuplicates(ids[0..]);
    NoDuplicatesDistinct(ids);
  }

  lemma TravelCategoryFieldIdsUnique1()
    ensures DistinctStrings(FieldIds(TravelCategory.subcategories[1].fields))
  {
    var ids := FieldIds(TravelCategory.subcategories[1].fields);
    assert ids == ["place", "visits", "why", "image"];
    assert NoDuplicates(ids[4..]);
    assert NoDuplicates(ids[3..]);
    assert NoDuplicates(ids[2..]);
    assert NoDuplicates(ids[1..]);
    assert NoDuplicates(ids[0..]);
    NoDuplicatesDistinct(ids);
  }

  lemma TravelCategoryFieldIdsUnique2()
    ensures DistinctStrings(FieldIds(TravelCategory.subcategories[2].fields))
  {
    var ids := FieldIds(TravelCategory.subcategories[2].fields);
    assert ids == ["item", "experience", "image"];
    assert NoDuplicates(ids[3..]);
    assert NoDuplicates(ids[2..]);
    assert NoDuplicates(ids[1..]);
    assert NoDuplicates(ids[0..]);
    NoDuplicatesDistinct(ids);
  }

  lemma TravelCategoryFieldIdsUnique3()
    ensures DistinctStrings(FieldIds(TravelCategory.subcategories[3].fields))
  {
    var ids := FieldIds(TravelCategory.subcategories[3].fields);
    assert ids == ["route", "distance", "bestStop", "image"];
    assert NoDuplicates(ids[4..]);
    assert NoDuplicates(ids[3..]);
    assert NoDuplicates(ids[2..]);
    assert NoDuplicates(ids[1..]);
    assert NoDuplicates(ids[0..]);
    NoDuplicatesDistinct(ids);
  }

  lemma TravelCategoryFieldIdsUnique()
    ensures FieldIdsUnique(TravelCategory.subcategories)
  {
    TravelCategoryFieldIdsUnique0();
    TravelCategoryFieldIdsUnique1();
    TravelCategoryFieldIdsUnique2();
    TravelCategoryFieldIdsUnique3();
  }

  lemma RelationshipsCategoryFieldIdsUnique0()
    ensures DistinctStrings(FieldIds(RelationshipsCategory.subcategories[0].fields))
  {
    var ids := FieldIds(RelationshipsCategory.subcategories[0].fields);
    assert ids == ["milestone", "partner", "memory", "image"];
    assert NoDuplicates(ids[4..]);
    assert NoDuplicates(ids[3..]);
    assert NoDuplicates(ids[2..]);
    assert NoDuplicates(ids[1..]);
    assert NoDuplicates(ids[0..]);
    NoDuplicatesDistinct(ids);
  }

  lemma RelationshipsCategoryFieldIdsUnique1()
    ensures DistinctStrings(FieldIds(RelationshipsCategory.subcategories[1].fields))
  {
    var ids := FieldIds(RelationshipsCategory.subcategories[1].fields);
    assert ids == ["moment", "who", "feeling", "image"];
    assert NoDuplicates(ids[4..]);
    assert NoDuplicates(ids[3..]);
    assert NoDuplicates(ids[2..]);
    assert NoDuplicates(ids[1..]);
    assert NoDuplicates(ids[0..]);
    NoDuplicatesDistinct(ids);
  }

  lemma RelationshipsCategoryFieldIdsUnique2()
    ensures DistinctStrings(FieldIds(RelationshipsCategory.subcategories[2].fields))
  {
    var ids := FieldIds(RelationshipsCategory.subcategories[2].fields);
    assert ids == ["name", "type", "trait", "image"];
    assert NoDuplicates(ids[4..]);
    assert NoDuplicates(ids[3..]);
    assert NoDuplicates(ids[2..]);
    assert NoDuplicates(ids[1..]);
    assert NoDuplicates(ids[0..]);
    NoDuplicatesDistinct(ids);
  }

  lemma RelationshipsCategoryFieldIdsUnique()
    ensures FieldIdsUnique(RelationshipsCategory.subcategories)
  {
    RelationshipsCategoryFieldIdsUnique0();
    RelationshipsCategoryFieldIdsUnique1();
    RelationshipsCategoryFieldIdsUnique2();
  }

  lemma EducationCategoryFieldIdsUnique0()
    ensures DistinctStrings(FieldIds(EducationCategory.subcategories[0].fields))
  {
    var ids := FieldIds(EducationCategory.subcategories[0].fields);
    assert ids == ["course", "platform", "takeaway"];
    assert NoDuplicates(ids[3..]);
    assert NoDuplicates(ids[2..]);
    assert NoDuplicates(ids[1..]);
    assert NoDuplicates(ids[0..]);
    NoDuplicatesDistinct(ids);
  }

  lemma EducationCategoryFieldIdsUnique1()
    ensures DistinctStrings(FieldIds(EducationCategory.subcategories[1].fields))
  {
    var ids := FieldIds(EducationCategory.subcategories[1].fields);
    assert ids == ["achievement", "subject", "effort", "image"];
    assert NoDuplicates(ids[4..]);
    assert NoDuplicates(ids[3..]);
    assert NoDuplicates(ids[2..]);
    assert NoDuplicates(ids[1..]);
    assert NoDuplicates(ids[0..]);
    NoDuplicatesDistinct(ids);
  }

  lemma EducationCategoryFieldIdsUnique2()
    ensures DistinctStrings(FieldIds(EducationCategory.subcategories[2].fields))
  {
    var ids := FieldIds(EducationCategory.subcategories[2].fields);
    assert ids == ["lesson", "context", "application"];
    assert NoDuplicates(ids[3..]);
    assert NoDuplicates(ids[2..]);
    assert NoDuplicates(ids[1..]);
    assert NoDuplicates(ids[0..]);
    NoDuplicatesDistinct(ids);
  }

  lemma EducationCategoryFieldIdsUnique()
    ensures FieldIdsUnique(EducationCategory.subcategories)
  {
    EducationCategoryFieldIdsUnique0();
    EducationCategoryFieldIdsUnique1();
    EducationCategoryFieldIdsUnique2();
  }

  lemma MiscellaneousCategoryFieldIdsUnique0()
    ensures DistinctStrings(FieldIds(MiscellaneousCategory.subcategories[0].fields))
  {
    var ids := FieldIds(MiscellaneousCategory.subcategories[0].fields);
    assert ids == ["memory", "who", "image"];
    assert NoDuplicates(ids[3..]);
    assert NoDuplicates(ids[2..]);
    assert NoDuplicates(ids[1..]);
    assert NoDuplicates(ids[0..]);
    NoDuplicatesDistinct(ids);
  }

  lemma MiscellaneousCategoryFieldIdsUnique1()
    ensures DistinctStrings(FieldIds(MiscellaneousCategory.subcategories[1].fields))
  {
    var ids := FieldIds(MiscellaneousCategory.subcategories[1].fields);
    assert ids == ["moment", "reaction", "lesson"];
    assert NoDuplicates(ids[3..]);
    assert NoDuplicates(ids[2..]);
    assert NoDuplicates(ids[1..]);
    assert NoDuplicates(ids[0..]);
    NoDuplicatesDistinct(ids);
  }

  lemma MiscellaneousCategoryFieldIdsUnique2()
    ensures DistinctStrings(FieldIds(MiscellaneousCategory.subcategories[2].fields))
  {
    var ids := FieldIds(MiscellaneousCategory.subcategories[2].fields);
    assert ids == ["flex", "proof", "image"];
    assert NoDuplicates(ids[3..]);
    assert NoDuplicates(ids[2..]);
    assert NoDuplicates(ids[1..]);
    assert NoDuplicates(ids[0..]);
    NoDuplicatesDistinct(ids);
  }

  lemma MiscellaneousCategoryFieldIdsUnique3()
    ensures DistinctStrings(FieldIds(MiscellaneousCategory.subcategories[3].fields))
  {
    var ids := FieldIds(MiscellaneousCategory.subcategories[3].fields);
    assert ids == ["pleasure", "frequency", "justification"];
    assert NoDuplicates(ids[3..]);
    assert NoDuplicates(ids[2..]);
    assert NoDuplicates(ids[1..]);
    assert NoDuplicates(ids[0..]);
    NoDuplicatesDistinct(ids);
  }

  lemma MiscellaneousCategoryFieldIdsUnique()
    ensures FieldIdsUnique(MiscellaneousCategory.subcategories)
  {
    MiscellaneousCategoryFieldIdsUnique0();
    MiscellaneousCategoryFieldIdsUnique1();
    MiscellaneousCategoryFieldIdsUnique2();
    MiscellaneousCategoryFieldIdsUnique3();
  }

  const PeopleIds: seq<string> := ["friend-of-year", "mentor-of-year", "person-called-most", "top-5-friends", "group-chat-mvp", "new-friend"]

  const EntertainmentIds: seq<string> := ["favorite-movie", "favorite-song", "favorite-show", "top-concert", "top-podcast", "top-book", "top-game"]

  const FoodIds: seq<string> := ["food-ate-most", "best-home-meal", "favorite-restaurant", "best-coffee", "best-snack"]

  const LifestyleIds: seq<string> := ["best-purchase", "favorite-outfit", "self-care-moment", "best-hobby"]

  const HabitsIds: seq<string> := ["top-habits", "fitness-stats", "sleep-stats", "mindfulness"]

  const AchievementsIds: seq<string> := ["personal-award", "highlights-2026", "biggest-win", "learning-milestone", "goal-achieved"]

  const TravelIds: seq<string> := ["best-trip", "most-visited-place", "bucket-list", "road-trip"]

  const RelationshipsIds: seq<string> := ["relationship-milestone", "family-moment", "pet-of-year"]

  const EducationIds: seq<string> := ["course-completed", "academic-achievement", "life-lesson"]

  const MiscellaneousIds: seq<string> := ["funniest-memory", "most-embarrassing", "random-flex", "guilty-pleasure"]

  /** The id lists of the main categories, in catalog order. */
  const IdGroupList: seq<seq<string>> := [PeopleIds, EntertainmentIds, FoodIds, LifestyleIds, HabitsIds, AchievementsIds, TravelIds, RelationshipsIds, EducationIds, MiscellaneousIds]

  /** Every subcategory id of the catalog, in catalog order. */
  const AllIds: seq<string> :=
    PeopleIds + (EntertainmentIds + (FoodIds + (LifestyleIds + (HabitsIds + (AchievementsIds + (TravelIds + (RelationshipsIds + (EducationIds + (MiscellaneousIds)))))))))

  lemma PeopleCategoryIds()
    ensures Ids(PeopleCategory.subcategories) == PeopleIds
  {
  }

  lemma PeopleIdsDistinct()
    ensures NoDuplicates(PeopleIds)
  {
    var ids := PeopleIds;
    assert NoDuplicates(ids[6..]);
    assert NoDuplicates(ids[5..]);
    assert NoDuplicates(ids[4..]);
    assert NoDuplicates(ids[3..]);
    assert NoDuplicates(ids[2..]);
    assert NoDuplicates(ids[1..]);
    assert NoDuplicates(ids[0..]);
  }

  lemma EntertainmentCategoryIds()
    ensures Ids(EntertainmentCategory.subcategories) == EntertainmentIds
  {
  }

  lemma EntertainmentIdsDistinct()
    ensures NoDuplicates(EntertainmentIds)
  {
    var ids := EntertainmentIds;
    assert NoDuplicates(ids[7..]);
    assert NoDuplicates(ids[6..]);
    assert NoDuplicates(ids[5..]);
    assert NoDuplicates(ids[4..]);
    assert NoDuplicates(ids[3..]);
    assert NoDuplicates(ids[2..]);
    assert NoDuplicates(ids[1..]);
    assert NoDuplicates(ids[0..]);
  }

  lemma FoodCategoryIds()
    ensures Ids(FoodCategory.subcategories) == FoodIds
  {
  }

  lemma FoodIdsDistinct()
    ensures NoDuplicates(FoodIds)
  {
    var ids := FoodIds;
    assert NoDuplicates(ids[5..]);
    assert NoDuplicates(ids[4..]);
    assert NoDuplicates(ids[3..]);
    assert NoDuplicates(ids[2..]);
    assert NoDuplicates(ids[1..]);
    assert NoDuplicates(ids[0..]);
  }

  lemma LifestyleCategoryIds()
    ensures Ids(LifestyleCategory.subcategories) == LifestyleIds
  {
  }

  lemma LifestyleIdsDistinct()
    ensures NoDuplicates(LifestyleIds)
  {
    var ids := LifestyleIds;
    assert NoDuplicates(ids[4..]);
    assert NoDuplicates(ids[3..]);
    assert NoDuplicates(ids[2..]);
    assert NoDuplicates(ids[1..]);
    assert NoDuplicates(ids[0..]);
  }

  lemma HabitsCategoryIds()
    ensures Ids(HabitsCategory.subcategories) == HabitsIds
  {
  }

  lemma HabitsIdsDistinct()
    ensures NoDuplicates(HabitsIds)
  {
    var ids := HabitsIds;
    assert NoDuplicates(ids[4..]);
    assert NoDuplicates(ids[3..]);
    assert NoDuplicates(ids[2..]);
    assert NoDuplicates(ids[1..]);
    assert NoDuplicates(ids[0..]);
  }

  lemma AchievementsCategoryIds()
    ensures Ids(AchievementsCategory.subcategories) == AchievementsIds
  {
  }

  lemma AchievementsIdsDistinct()
    ensures NoDuplicates(AchievementsIds)
  {
    var ids := AchievementsIds;
    assert NoDuplicates(ids[5..]);
    assert NoDuplicates(ids[4..]);
    assert NoDuplicates(ids[3..]);
    assert NoDuplicates(ids[2..]);
    assert NoDuplicates(ids[1..]);
    assert NoDuplicates(ids[0..]);
  }

  lemma TravelCategoryIds()
    ensures Ids(TravelCategory.subcategories) == TravelIds
  {
  }

  lemma TravelIdsDistinct()
    ensures NoDuplicates(TravelIds)
  {
    var ids := TravelIds;
    assert NoDuplicates(ids[4..]);
    assert NoDuplicates(ids[3..]);
    assert NoDuplicates(ids[2..]);
    assert NoDuplicates(ids[1..]);
    assert NoDuplicates(ids[0..]);
  }

  lemma RelationshipsCategoryIds()
    ensures Ids(RelationshipsCategory.subcategories) == RelationshipsIds
  {
  }

  lemma RelationshipsIdsDistinct()
    ensures NoDuplicates(RelationshipsIds)
  {
    var ids := RelationshipsIds;
    assert NoDuplicates(ids[3..]);
    assert NoDuplicates(ids[2..]);
    assert NoDuplicates(ids[1..]);
    assert NoDuplicates(ids[0..]);
  }

  lemma EducationCategoryIds()
    ensures Ids(EducationCategory.subcategories) == EducationIds
  {
  }

  lemma EducationIdsDistinct()
    ensures NoDuplicates(EducationIds)
  {
    var ids := EducationIds;
    assert NoDuplicates(ids[3..]);
    assert NoDuplicates(ids[2..]);
    assert NoDuplicates(ids[1..]);
    assert NoDuplicates(ids[0..]);
  }

  lemma MiscellaneousCategoryIds()
    ensures Ids(MiscellaneousCategory.subcategories) == MiscellaneousIds
  {
  }

  lemma MiscellaneousIdsDistinct()
    ensures NoDuplicates(MiscellaneousIds)
  {
    var ids := MiscellaneousIds;
    assert NoDuplicates(ids[4..]);
    assert NoDuplicates(ids[3..]);
    assert NoDuplicates(ids[2..]);
    assert NoDuplicates(ids[1..]);
    assert NoDuplicates(ids[0..]);
  }

  lemma Disjoint0And1()
    ensures Disjoint(PeopleIds, EntertainmentIds)
  {
  }

  lemma Disjoint0And2()
    ensures Disjoint(PeopleIds, FoodIds)
  {
  }

  lemma Disjoint0And3()
    ensures Disjoint(PeopleIds, LifestyleIds)
  {
  }

  lemma Disjoint0And4()
    ensures Disjoint(PeopleIds, HabitsIds)
  {
  }

  lemma Disjoint0And5()
    ensures Disjoint(PeopleIds, AchievementsIds)
  {
  }

  lemma Disjoint0And6()
    ensures Disjoint(PeopleIds, TravelIds)
  {
  }

  lemma Disjoint0And7()
    ensures Disjoint(PeopleIds, RelationshipsIds)
  {
  }

  lemma Disjoint0And8()
    ensures Disjoint(PeopleIds, EducationIds)
  {
  }

  lemma Disjoint0And9()
    ensures Disjoint(PeopleIds, MiscellaneousIds)
  {
  }

  lemma Disjoint1And2()
    ensures Disjoint(EntertainmentIds, FoodIds)
  {
  }

  lemma Disjoint1And3()
    ensures Disjoint(EntertainmentIds, LifestyleIds)
  {
  }

  lemma Disjoint1And4()
    ensures Disjoint(EntertainmentIds, HabitsIds)
  {
  }

  lemma Disjoint1And5()
    ensures Disjoint(EntertainmentIds, AchievementsIds)
  {
  }

  lemma Disjoint1And6()
    ensures Disjoint(EntertainmentIds, TravelIds)
  {
  }

  lemma Disjoint1And7()
    ensures Disjoint(EntertainmentIds, RelationshipsIds)
  {
  }

  lemma Disjoint1And8()
    ensures Disjoint(EntertainmentIds, EducationIds)
  {
  }

  lemma Disjoint1And9()
    ensures Disjoint(EntertainmentIds, MiscellaneousIds)
  {
  }

  lemma Disjoint2And3()
    ensures Disjoint(FoodIds, LifestyleIds)
  {
  }

  lemma Disjoint2And4()
    ensures Disjoint(FoodIds, HabitsIds)
  {
  }

  lemma Disjoint2And5()
    ensures Disjoint(FoodIds, AchievementsIds)
  {
  }

  lemma Disjoint2And6()
    ensures Disjoint(FoodIds, TravelIds)
  {
  }

  lemma Disjoint2And7()
    ensures Disjoint(FoodIds, RelationshipsIds)
  {
  }

  lemma Disjoint2And8()
    ensures Disjoint(FoodIds, EducationIds)
  {
  }

  lemma Disjoint2And9()
    ensures Disjoint(FoodIds, MiscellaneousIds)
  {
  }

  lemma Disjoint3And4()
    ensures Disjoint(LifestyleIds, HabitsIds)
  {
  }

  lemma Disjoint3And5()
    ensures Disjoint(LifestyleIds, AchievementsIds)
  {
  }

  lemma Disjoint3And6()
    ensures Disjoint(LifestyleIds, TravelIds)
  {
  }

  lemma Disjoint3And7()
    ensures Disjoint(LifestyleIds, RelationshipsIds)
  {
  }

  lemma Disjoint3And8()
    ensures Disjoint(LifestyleIds, EducationIds)
  {
  }

  lemma Disjoint3And9()
    ensures Disjoint(LifestyleIds, MiscellaneousIds)
  {
  }

  lemma Disjoint4And5()
    ensures Disjoint(HabitsIds, AchievementsIds)
  {
  }

  lemma Disjoint4And6()
    ensures Disjoint(HabitsIds, TravelIds)
  {
  }

  lemma Disjoint4And7()
    ensures Disjoint(HabitsIds, RelationshipsIds)
  {
  }

  lemma Disjoint4And8()
    ensures Disjoint(HabitsIds, EducationIds)
  {
  }

  lemma Disjoint4And9()
    ensures Disjoint(HabitsIds, MiscellaneousIds)
  {
  }

  lemma Disjoint5And6()
    ensures Disjoint(AchievementsIds, TravelIds)
  {
  }

  lemma Disjoint5And7()
    ensures Disjoint(AchievementsIds, RelationshipsIds)
  {
  }

  lemma Disjoint5And8()
    ensures Disjoint(AchievementsIds, EducationIds)
  {
  }

  lemma Disjoint5And9()
    ensures Disjoint(AchievementsIds, MiscellaneousIds)
  {
  }

  lemma Disjoint6And7()
    ensures Disjoint(TravelIds, RelationshipsIds)
  {
  }

  lemma Disjoint6And8()
    ensures Disjoint(TravelIds, EducationIds)
  {
  }

  lemma Disjoint6And9()
    ensures Disjoint(TravelIds, MiscellaneousIds)
  {
  }

  lemma Disjoint7And8()
    ensures Disjoint(RelationshipsIds, EducationIds)
  {
  }

  lemma Disjoint7And9()
    ensures Disjoint(RelationshipsIds, MiscellaneousIds)
  {
  }

  lemma Disjoint8And9()
    ensures Disjoint(EducationIds, MiscellaneousIds)
  {
  }

  lemma DisjointFromLater0()
    ensures DisjointFromAll(PeopleIds, IdGroupList[1..])
  {
    var rest := IdGroupList[1..];
    assert rest[9..] == [];
    Disjoint0And9();
    assert rest[8..][0] == MiscellaneousIds && rest[8..][1..] == rest[9..];
    assert DisjointFromAll(PeopleIds, rest[8..]);
    Disjoint0And8();
    assert rest[7..][0] == EducationIds && rest[7..][1..] == rest[8..];
    assert DisjointFromAll(PeopleIds, rest[7..]);
    Disjoint0And7();
    assert rest[6..][0] == RelationshipsIds && rest[6..][1..] == rest[7..];
    assert DisjointFromAll(PeopleIds, rest[6..]);
    Disjoint0And6();
    assert rest[5..][0] == TravelIds && rest[5..][1..] == rest[6..];
    assert DisjointFromAll(PeopleIds, rest[5..]);
    Disjoint0And5();
    assert rest[4..][0] == AchievementsIds && rest[4..][1..] == rest[5..];
    assert DisjointFromAll(PeopleIds, rest[4..]);
    Disjoint0And4();
    assert rest[3..][0] == HabitsIds && rest[3..][1..] == rest[4..];
    assert DisjointFromAll(PeopleIds, rest[3..]);
    Disjoint0And3();
    assert rest[2..][0] == LifestyleIds && rest[2..][1..] == rest[3..];
    assert DisjointFromAll(PeopleIds, rest[2..]);
    Disjoint0And2();
    assert rest[1..][0] == FoodIds && rest[1..][1..] == rest[2..];
    assert DisjointFromAll(PeopleIds, rest[1..]);
    Disjoint0And1();
    assert rest[0..][0] == EntertainmentIds && rest[0..][1..] == rest[1..];
    assert DisjointFromAll(PeopleIds, rest[0..]);
    assert rest[0..] == rest;
  }

  lemma DisjointFromLater1()
    ensures DisjointFromAll(EntertainmentIds, IdGroupList[2..])
  {
    var rest := IdGroupList[2..];
    assert rest[8..] == [];
    Disjoint1And9();
    assert rest[7..][0] == MiscellaneousIds && rest[7..][1..] == rest[8..];
    assert DisjointFromAll(EntertainmentIds, rest[7..]);
    Disjoint1And8();
    assert rest[6..][0] == EducationIds && rest[6..][1..] == rest[7..];
    assert DisjointFromAll(EntertainmentIds, rest[6..]);
    Disjoint1And7();
    assert rest[5..][0] == RelationshipsIds && rest[5..][1..] == rest[6..];
    assert DisjointFromAll(EntertainmentIds, rest[5..]);
    Disjoint1And6();
    assert rest[4..][0] == TravelIds && rest[4..][1..] == rest[5..];
    assert DisjointFromAll(EntertainmentIds, rest[4..]);
    Disjoint1And5();
    assert rest[3..][0] == AchievementsIds && rest[3..][1..] == rest[4..];
    assert DisjointFromAll(EntertainmentIds, rest[3..]);
    Disjoint1And4();
    assert rest[2..][0] == HabitsIds && rest[2..][1..] == rest[3..];
    assert DisjointFromAll(EntertainmentIds, rest[2..]);
    Disjoint1And3();
    assert rest[1..][0] == LifestyleIds && rest[1..][1..] == rest[2..];
    assert DisjointFromAll(EntertainmentIds, rest[1..]);
    Disjoint1And2();
    assert rest[0..][0] == FoodIds && rest[0..][1..] == rest[1..];
    assert DisjointFromAll(EntertainmentIds, rest[0..]);
    assert rest[0..] == rest;
  }

  lemma DisjointFromLater2()
    ensures DisjointFromAll(FoodIds, IdGroupList[3..])
  {
    var rest := IdGroupList[3..];
    assert rest[7..] == [];
    Disjoint2And9();
    assert rest[6..][0] == MiscellaneousIds && rest[6..][1..] == rest[7..];
    assert DisjointFromAll(FoodIds, rest[6..]);
    Disjoint2And8();
    assert rest[5..][0] == EducationIds && rest[5..][1..] == rest[6..];
    assert DisjointFromAll(FoodIds, rest[5..]);
    Disjoint2And7();
    assert rest[4..][0] == RelationshipsIds && rest[4..][1..] == rest[5..];
    assert DisjointFromAll(FoodIds, rest[4..]);
    Disjoint2And6();
    assert rest[3..][0] == TravelIds && rest[3..][1..] == rest[4..];
    assert DisjointFromAll(FoodIds, rest[3..]);
    Disjoint2And5();
    assert rest[2..][0] == AchievementsIds && rest[2..][1..] == rest[3..];
    assert DisjointFromAll(FoodIds, rest[2..]);
    Disjoint2And4();
    assert rest[1..][0] == HabitsIds && rest[1..][1..] == rest[2..];
    assert DisjointFromAll(FoodIds, rest[1..]);
    Disjoint2And3();
    assert rest[0..][0] == LifestyleIds && rest[0..][1..] == rest[1..];
    assert DisjointFromAll(FoodIds, rest[0..]);
    assert rest[0..] == rest;
  }

  lemma DisjointFromLater3()
    ensures DisjointFromAll(LifestyleIds, IdGroupList[4..])
  {
    var rest := IdGroupList[4..];
    assert rest[6..] == [];
    Disjoint3And9();
    assert rest[5..][0] == MiscellaneousIds && rest[5..][1..] == rest[6..];
    assert DisjointFromAll(LifestyleIds, rest[5..]);
    Disjoint3And8();
    assert rest[4..][0] == EducationIds && rest[4..][1..] == rest[5..];
    assert DisjointFromAll(LifestyleIds, rest[4..]);
    Disjoint3And7();
    assert rest[3..][0] == RelationshipsIds && rest[3..][1..] == rest[4..];
    assert DisjointFromAll(LifestyleIds, rest[3..]);
    Disjoint3And6();
    assert rest[2..][0] == TravelIds && rest[2..][1..] == rest[3..];
    assert DisjointFromAll(LifestyleIds, rest[2..]);
    Disjoint3And5();
    assert rest[1..][0] == AchievementsIds && rest[1..][1..] == rest[2..];
    assert DisjointFromAll(LifestyleIds, rest[1..]);
    Disjoint3And4();
    assert rest[0..][0] == HabitsIds && rest[0..][1..] == rest[1..];
    assert DisjointFromAll(LifestyleIds, rest[0..]);
    assert rest[0..] == rest;
  }

  lemma DisjointFromLater4()
    ensures DisjointFromAll(HabitsIds, IdGroupList[5..])
  {
    var rest := IdGroupList[5..];
    assert rest[5..] == [];
    Disjoint4And9();
    assert rest[4..][0] == MiscellaneousIds && rest[4..][1..] == rest[5..];
    assert DisjointFromAll(HabitsIds, rest[4..]);
    Disjoint4And8();
    assert rest[3..][0] == EducationIds && rest[3..][1..] == rest[4..];
    assert DisjointFromAll(HabitsIds, rest[3..]);
    Disjoint4And7();
    assert rest[2..][0] == RelationshipsIds && rest[2..][1..] == rest[3..];
    assert DisjointFromAll(HabitsIds, rest[2..]);
    Disjoint4And6();
    assert rest[1..][0] == TravelIds && rest[1..][1..] == rest[2..];
    assert DisjointFromAll(HabitsIds, rest[1..]);
    Disjoint4And5();
    assert rest[0..][0] == AchievementsIds && rest[0..][1..] == rest[1..];
    assert DisjointFromAll(HabitsIds, rest[0..]);
    assert rest[0..] == rest;
  }

  lemma DisjointFromLater5()
    ensures DisjointFromAll(AchievementsIds, IdGroupList[6..])
  {
    var rest := IdGroupList[6..];
    assert rest[4..] == [];
    Disjoint5And9();
    assert rest[3..][0] == MiscellaneousIds && rest[3..][1..] == rest[4..];
    assert DisjointFromAll(AchievementsIds, rest[3..]);
    Disjoint5And8();
    assert rest[2..][0] == EducationIds && rest[2..][1..] == rest[3..];
    assert DisjointFromAll(AchievementsIds, rest[2..]);
    Disjoint5And7();
    assert rest[1..][0] == RelationshipsIds && rest[1..][1..] == rest[2..];
    assert DisjointFromAll(AchievementsIds, rest[1..]);
    Disjoint5And6();
    assert rest[0..][0] == TravelIds && rest[0..][1..] == rest[1..];
    assert DisjointFromAll(AchievementsIds, rest[0..]);
    assert rest[0..] == rest;
  }

  lemma DisjointFromLater6()
    ensures DisjointFromAll(TravelIds, IdGroupList[7..])
  {
    var rest := IdGroupList[7..];
    assert rest[3..] == [];
    Disjoint6And9();
    assert rest[2..][0] == MiscellaneousIds && rest[2..][1..] == rest[3..];
    assert DisjointFromAll(TravelIds, rest[2..]);
    Disjoint6And8();
    assert rest[1..][0] == EducationIds && rest[1..][1..] == rest[2..];
    assert DisjointFromAll(TravelIds, rest[1..]);
    Disjoint6And7();
    assert rest[0..][0] == RelationshipsIds && rest[0..][1..] == rest[1..];
    assert DisjointFromAll(TravelIds, rest[0..]);
    assert rest[0..] == rest;
  }

  lemma DisjointFromLater7()
    ensures DisjointFromAll(RelationshipsIds, IdGroupList[8..])
  {
    var rest := IdGroupList[8..];
    assert rest[2..] == [];
    Disjoint7And9();
    assert rest[1..][0] == MiscellaneousIds && rest[1..][1..] == rest[2..];
    assert DisjointFromAll(RelationshipsIds, rest[1..]);
    Disjoint7And8();
    assert rest[0..][0] == EducationIds && rest[0..][1..] == rest[1..];
    assert DisjointFromAll(RelationshipsIds, rest[0..]);
    assert rest[0..] == rest;
  }

  lemma DisjointFromLater8()
    ensures DisjointFromAll(EducationIds, IdGroupList[9..])
  {
    var rest := IdGroupList[9..];
    assert rest[1..] == [];
    Disjoint8And9();
    assert rest[0..][0] == MiscellaneousIds && rest[0..][1..] == rest[1..];
    assert DisjointFromAll(EducationIds, rest[0..]);
    assert rest[0..] == rest;
  }

  lemma GroupsFrom9()
    ensures GroupsDistinct(IdGroupList[9..])
  {
    var gs := IdGroupList;
    MiscellaneousIdsDistinct();
    assert gs[10..] == [];
    assert gs[9..][0] == MiscellaneousIds && gs[9..][1..] == gs[10..];
  }

  lemma GroupsFrom8()
    ensures GroupsDistinct(IdGroupList[8..])
  {
    var gs := IdGroupList;
    EducationIdsDistinct();
    DisjointFromLater8();
    GroupsFrom9();
    assert gs[8..][0] == EducationIds && gs[8..][1..] == gs[9..];
  }

  lemma GroupsFrom7()
    ensures GroupsDistinct(IdGroupList[7..])
  {
    var gs := IdGroupList;
    RelationshipsIdsDistinct();
    DisjointFromLater7();
    GroupsFrom8();
    assert gs[7..][0] == RelationshipsIds && gs[7..][1..] == gs[8..];
  }

  lemma GroupsFrom6()
    ensures GroupsDistinct(IdGroupList[6..])
  {
    var gs := IdGroupList;
    TravelIdsDistinct();
    DisjointFromLater6();
    GroupsFrom7();
    assert gs[6..][0] == TravelIds && gs[6..][1..] == gs[7..];
  }

  lemma GroupsFrom5()
    ensures GroupsDistinct(IdGroupList[5..])
  {
    var gs := IdGroupList;
    AchievementsIdsDistinct();
    DisjointFromLater5();
    GroupsFrom6();
    assert gs[5..][0] == AchievementsIds && gs[5..][1..] == gs[6..];
  }

  lemma GroupsFrom4()
    ensures GroupsDistinct(IdGroupList[4..])
  {
    var gs := IdGroupList;
    HabitsIdsDistinct();
    DisjointFromLater4();
    GroupsFrom5();
    assert gs[4..][0] == HabitsIds && gs[4..][1..] == gs[5..];
  }

  lemma GroupsFrom3()
    ensures GroupsDistinct(IdGroupList[3..])
  {
    var gs := IdGroupList;
    LifestyleIdsDistinct();
    DisjointFromLater3();
    GroupsFrom4();
    assert gs[3..][0] == LifestyleIds && gs[3..][1..] == gs[4..];
  }

  lemma GroupsFrom2()
    ensures GroupsDistinct(IdGroupList[2..])
  {
    var gs := IdGroupList;
    FoodIdsDistinct();
    DisjointFromLater2();
    GroupsFrom3();
    assert gs[2..][0] == FoodIds && gs[2..][1..] == gs[3..];
  }

  lemma GroupsFrom1()
    ensures GroupsDistinct(IdGroupList[1..])
  {
    var gs := IdGroupList;
    EntertainmentIdsDistinct();
    DisjointFromLater1();
    GroupsFrom2();
    assert gs[1..][0] == EntertainmentIds && gs[1..][1..] == gs[2..];
  }

  lemma GroupsFrom0()
    ensures GroupsDistinct(IdGroupList[0..])
  {
    var gs := IdGroupList;
    PeopleIdsDistinct();
    DisjointFromLater0();
    GroupsFrom1();
    assert gs[0..][0] == PeopleIds && gs[0..][1..] == gs[1..];
  }

  lemma ConcatStep(groups: seq<seq<string>>, k: nat)
    requires k < |groups|
    ensures Concat(groups[k..]) == groups[k] + Concat(groups[k + 1..])
  {
    assert groups[k..][0] == groups[k] && groups[k..][1..] == groups[k + 1..];
  }

  /** The id groups, concatenated, are the catalog's id list. */
  lemma IdGroupListConcat()
    ensures Concat(IdGroupList) == AllIds
  {
    var gs := IdGroupList;
    ConcatStep(gs, 9);
    ConcatStep(gs, 8);
    ConcatStep(gs, 7);
    ConcatStep(gs, 6);
    ConcatStep(gs, 5);
    ConcatStep(gs, 4);
    ConcatStep(gs, 3);
    ConcatStep(gs, 2);
    ConcatStep(gs, 1);
    ConcatStep(gs, 0);
    assert gs[10..] == [] && gs[0..] == gs;
    assert MiscellaneousIds + [] == MiscellaneousIds;
  }

  lemma CatalogIdGroups()
    ensures IdGroups(MainCategories) == IdGroupList
  {
    PeopleCategoryIds();
    EntertainmentCategoryIds();
    FoodCategoryIds();
    LifestyleCategoryIds();
    HabitsCategoryIds();
    AchievementsCategoryIds();
    TravelCategoryIds();
    RelationshipsCategoryIds();
    EducationCategoryIds();
    MiscellaneousCategoryIds();
  }

  /** The catalog's subcategory ids in order, main category by main
      category. */
  lemma CategoryIdList()
    ensures Ids(Categories) == AllIds
  {
    FlattenConcat(MainCategories);
    CatalogIdGroups();
    IdGroupListConcat();
  }

  lemma CategoriesSize()
    ensures |Categories| == 45
  {
    CategoryIdList();
  }

  lemma CatalogFieldIdsUnique()
    ensures forall i :: 0 <= i < |MainCategories| ==> FieldIdsUnique(MainCategories[i].subcategories)
  {
    forall i | 0 <= i < |MainCategories| ensures FieldIdsUnique(MainCategories[i].subcategories) {
      if i == 0 {
        assert MainCategories[0] == PeopleCategory;
        PeopleCategoryFieldIdsUnique();
      } else if i == 1 {
        assert MainCategories[1] == EntertainmentCategory;
        EntertainmentCategoryFieldIdsUnique();
      } else if i == 2 {
        assert MainCategories[2] == FoodCategory;
        FoodCategoryFieldIdsUnique();
      } else if i == 3 {
        assert MainCategories[3] == LifestyleCategory;
        LifestyleCategoryFieldIdsUnique();
      } else if i == 4 {
        assert MainCategories[4] == HabitsCategory;
        HabitsCategoryFieldIdsUnique();
      } else if i == 5 {
        assert MainCategories[5] == AchievementsCategory;
        AchievementsCategoryFieldIdsUnique();
      } else if i == 6 {
        assert MainCategories[6] == TravelCategory;
        TravelCategoryFieldIdsUnique();
      } else if i == 7 {
        assert MainCategories[7] == RelationshipsCategory;
        RelationshipsCategoryFieldIdsUnique();
      } else if i == 8 {
        assert MainCategories[8] == EducationCategory;
        EducationCategoryFieldIdsUnique();
      } else if i == 9 {
        assert MainCategories[9] == MiscellaneousCategory;
        MiscellaneousCategoryFieldIdsUnique();
      }
    }
  }

  /** `CATEGORIES` holds the 45 subcategories of the ten main categories; no
      subcategory id occurs twice in it, and no field id occurs twice within
      a subcategory. */
  lemma {:induction false} CatalogWellFormed()
    ensures |MainCategories| == 10
    ensures |Categories| == 45
    ensures DistinctStrings(Ids(Categories))
    ensures forall s :: s in Categories ==> DistinctStrings(FieldIds(s.fields))
  {
    CategoryIdList();
    IdGroupListConcat();
    GroupsFrom0();
    assert IdGroupList[0..] == IdGroupList;
    GroupsDistinctConcat(IdGroupList);
    CatalogFieldIdsUnique();
    FieldIdsUniqueFlatten(MainCategories);
  }
}
