/**
 * The Index page (src/pages/Index.tsx): which screen is shown, the logged-in
 * username and the cumulative stats, and the handlers the page passes to the
 * screen it renders.
 */
module ScreenController {
  import opened Progression
  import QuizGame

  datatype GameState = Loading | Login | Dashboard | Quiz | Picture

  /** The page's handlers, each an event the rendered screen can raise. */
  datatype Event =
    | LoadingComplete | LoggedIn | LoggedOut
    | QuizCompleted | PictureCompleted
    | StartQuiz | StartPictureGame | Back

  /** The callbacks the page hands to the component it renders for each state. */
  function Offered(state: GameState): (events: set<Event>)
    ensures Back in events <==> state == Quiz || state == Picture
    ensures LoggedOut in events <==> state == Dashboard
    ensures LoadingComplete in events <==> state == Loading
    ensures LoggedIn in events <==> state == Login
    ensures QuizCompleted in events <==> state == Quiz
    ensures PictureCompleted in events <==> state == Picture
  {
    match state
    case Loading => {LoadingComplete}
    case Login => {LoggedIn}
    case Quiz => {QuizCompleted, Back}
    case Picture => {PictureCompleted, Back}
    case Dashboard => {StartQuiz, StartPictureGame, LoggedOut}
  }

  /** The state each handler sets, whatever the state it is called in. */
  function Target(e: Event): (screen: GameState)
    ensures screen != Loading
    ensures screen == Login <==> e == LoadingComplete || e == LoggedOut
    ensures screen == Quiz <==> e == StartQuiz
    ensures screen == Picture <==> e == StartPictureGame
  {
    match e
    case LoadingComplete => Login
    case LoggedIn => Dashboard
    case LoggedOut => Login
    case QuizCompleted => Dashboard
    case PictureCompleted => Dashboard
    case StartQuiz => Quiz
    case StartPictureGame => Picture
    case Back => Dashboard
  }

  /**
   * The screens follow loading -> login -> dashboard -> quiz | picture ->
   * dashboard, and logout from the dashboard back to login: no offered event
   * leads anywhere else, and loading is never re-entered.
   */
  lemma OfferedMoves(state: GameState, e: Event)
    requires e in Offered(state)
    ensures Target(e) != Loading
    ensures state == Loading ==> Target(e) == Login
    ensures state == Login ==> Target(e) == Dashboard
    ensures state == Quiz || state == Picture ==> Target(e) == Dashboard
    ensures state == Dashboard ==> Target(e) in {Quiz, Picture, Login}
    ensures Target(e) == Quiz || Target(e) == Picture ==> state == Dashboard
  {
  }

  /** The Index page's state. */
  class Index {
    var gameState: GameState
    var username: string
    var userStats: UserStats

    /** level == points / 100 + 1, points >= 0 (by type), and no badge is held twice. */
    ghost predicate Valid()
      reads this
    {
      Consistent(userStats)
    }

    /** A fresh page: loading, nobody logged in, default stats. */
    constructor ()
      ensures Valid()
      ensures gameState == Loading && username == "" && userStats == DefaultStats
    {
      gameState, username, userStats := Loading, "", DefaultStats;
    }

    /** handleLoadingComplete: show the login form. */
    method HandleLoadingComplete()
      requires Valid()
      modifies this
      ensures Valid()
      ensures gameState == Target(LoadingComplete) == Login
      ensures username == old(username) && userStats == old(userStats)
    {
      gameState := Login;
    }

    /** handleLogin: store the submitted name and show the dashboard. */
    method HandleLogin(user: string)
      requires Valid()
      modifies this
      ensures Valid()
      ensures gameState == Target(LoggedIn) == Dashboard
      ensures username == user && userStats == old(userStats)
    {
      username := user;
      gameState := Dashboard;
    }

    /** handleLogout: forget the user and every stat, back to the login form. */
    method HandleLogout()
      requires Valid()
      modifies this
      ensures Valid()
      ensures gameState == Target(LoggedOut) == Login
      ensures username == "" && userStats == DefaultStats
    {
      username := "";
      userStats := DefaultStats;
      gameState := Login;
    }

    /** handleQuizComplete: merge the quiz result, count one more quiz, show the dashboard. */
    method HandleQuizComplete(points: nat, badges: seq<string>)
      requires Valid()
      modifies this
      ensures Valid()
      ensures gameState == Target(QuizCompleted) == Dashboard && username == old(username)
      ensures userStats == Merge(old(userStats), points, badges, true)
      ensures userStats.points == old(userStats.points) + points
      ensures userStats.quizzesCompleted == old(userStats.quizzesCompleted) + 1
      ensures userStats.badges == SetAddAll(old(userStats.badges), badges)
    {
      MergeBadgeOrder(userStats, points, badges, true);
      userStats := Merge(userStats, points, badges, true);
      gameState := Dashboard;
    }

    /** handlePictureGameComplete: merge the picture result, stay at the same quiz count. */
    method HandlePictureGameComplete(points: nat, badges: seq<string>)
      requires Valid()
      modifies this
      ensures Valid()
      ensures gameState == Target(PictureCompleted) == Dashboard && username == old(username)
      ensures userStats == Merge(old(userStats), points, badges, false)
      ensures userStats.points == old(userStats.points) + points
      ensures userStats.quizzesCompleted == old(userStats.quizzesCompleted)
      ensures userStats.badges == SetAddAll(old(userStats.badges), badges)
    {
      MergeBadgeOrder(userStats, points, badges, false);
      userStats := Merge(userStats, points, badges, false);
      gameState := Dashboard;
    }

    /** The dashboard's start-quiz action. */
    method StartQuiz()
      requires Valid()
      modifies this`gameState
      ensures Valid()
      ensures gameState == Target(Event.StartQuiz) == Quiz
    {
      gameState := Quiz;
    }

    /** The dashboard's start-picture-game action. */
    method StartPictureGame()
      requires Valid()
      modifies this`gameState
      ensures Valid()
      ensures gameState == Target(Event.StartPictureGame) == Picture
    {
      gameState := Picture;
    }

    /** A game's back action: the session is dropped, the stats are untouched. */
    method Back()
      requires Valid()
      modifies this`gameState
      ensures Valid()
      ensures gameState == Target(Event.Back) == Dashboard
    {
      gameState := Dashboard;
    }
  }

  /**
   * 80 points and Eco Learner, then a quiz worth 20 points earning Eco Learner
   * again: 100 points, level 2, and Eco Learner held once.
   */
  lemma EcoLearnerScenario()
    ensures Merge(UserStats(80, [QuizGame.EcoLearner], 1, 0), 20, [QuizGame.EcoLearner], true)
      == UserStats(100, [QuizGame.EcoLearner], 2, 1)
  {
    var prev := UserStats(80, [QuizGame.EcoLearner], 1, 0);
    DedupAppend(prev.badges, [QuizGame.EcoLearner]);
  }
}
