/** The two translation tables (src/locales/index.ts): each maps the
    interface's keys to their Russian or English wording. An object literal
    is modelled as its list of entries in source order, written section by
    section as the source groups them. */
module Locales {
  import opened Wrappers

  type Entry = (string, string)
  type Table = seq<Entry>

  /** The value an object literal gives `key`: that of the last entry
      carrying it, as a repeated key overrides the earlier ones. */
  function Lookup(t: Table, key: string): (r: Option<string>)
    ensures r.None? <==> forall i :: 0 <= i < |t| ==> t[i].0 != key
    ensures r.Some? ==> exists i :: 0 <= i < |t| && t[i] == (key, r.value)
                                  && forall j :: i < j < |t| ==> t[j].0 != key
  {
    if |t| == 0 then None
    else if t[|t| - 1].0 == key then Some(t[|t| - 1].1)
    else Lookup(t[..|t| - 1], key)
  }

  /** Every listed key has a non-empty wording. */
  ghost predicate NoEmptyValue(t: Table)
  {
    forall i :: 0 <= i < |t| ==> t[i].1 != ""
  }

  /** The two tables list the same keys in the same order. */
  ghost predicate SameKeys(a: Table, b: Table)
  {
    |a| == |b| && forall i :: 0 <= i < |a| ==> a[i].0 == b[i].0
  }

  /** Tables that agree section by section agree as a whole. */
  lemma ConcatAgrees(a1: Table, a2: Table, b1: Table, b2: Table)
    requires NoEmptyValue(a1) && NoEmptyValue(a2) && NoEmptyValue(b1) && NoEmptyValue(b2)
    requires SameKeys(a1, b1) && SameKeys(a2, b2)
    ensures NoEmptyValue(a1 + a2) && NoEmptyValue(b1 + b2) && SameKeys(a1 + a2, b1 + b2)
  {
  }

  // Navigation
  const RuNavigation: Table := [
    ("home", "Главная"),
    ("developers", "Разработчики"),
    ("projects", "Проекты"),
    ("messages", "Сообщения"),
    ("aboutCreators", "О создателях"),
    ("forDevelopers", "Для разработчиков")
  ]

  // Auth
  const RuAuth: Table := [
    ("login", "Войти"),
    ("logout", "Выйти"),
    ("register", "Регистрация"),
    ("forgotPassword", "Забыли пароль?"),
    ("username", "Имя пользователя"),
    ("password", "Пароль"),
    ("email", "Email"),
    ("resetPassword", "Сбросить пароль"),
    ("sendResetLink", "Отправить ссылку для сброса"),
    ("goBack", "Назад"),
    ("vkLink", "Ссылка ВКонтакте"),
    ("telegramLink", "Ссылка Telegram"),
    ("githubLink", "Ссылка GitHub"),
    ("technologies", "Технологии"),
    ("experienceDetails", "Опыт работы (подробно)"),
    ("specialization", "Направление разработки")
  ]

  // Profile
  const RuProfile: Table := [
    ("profile", "Профиль"),
    ("editProfile", "Редактировать профиль"),
    ("deleteProfile", "Удалить профиль"),
    ("settings", "Настройки"),
    ("experience", "Опыт работы"),
    ("skills", "Навыки"),
    ("contacts", "Контакты"),
    ("information", "Информация")
  ]

  // Developers
  const RuDevelopers: Table := [
    ("searchByName", "Поиск по имени, роли, описанию или навыкам..."),
    ("yearsExperience", "лет опыта"),
    ("currentlyStudying", "Сейчас изучает"),
    ("fullProfile", "Полный профиль")
  ]

  // Projects
  const RuProjects: Table := [
    ("createProject", "Создать проект"),
    ("projectName", "Название проекта"),
    ("projectDescription", "Описание проекта")
  ]

  // Messages
  const RuMessages: Table := [
    ("newMessage", "Новое сообщение"),
    ("searchDialogs", "Поиск диалогов..."),
    ("online", "В сети"),
    ("sendMessage", "Отправить сообщение"),
    ("typeMessage", "Введите сообщение..."),
    ("loginToMessage", "Войти в аккаунт")
  ]

  // Admin
  const RuAdmin: Table := [
    ("usersData", "Данные пользователей"),
    ("usersInfo", "Информация о зарегистрированных пользователях DevNet"),
    ("activityOverview", "Обзор активности"),
    ("userActivityStats", "Общая статистика пользовательской активности"),
    ("totalUsers", "Всего пользователей"),
    ("newThisWeek", "Новых за неделю"),
    ("users", "Пользователи"),
    ("name", "Имя"),
    ("telegram", "Telegram"),
    ("registrationDate", "Дата регистрации"),
    ("exportToCsv", "Экспорт в CSV"),
    ("exportToExcel", "Экспорт в Excel"),
    ("accessGranted", "Доступ предоставлен!")
  ]

  // Creator page
  const RuCreatorPage: Table := [
    ("meetTheTeam", "Познакомьтесь с командой, стоящей за проектом DevNet"),
    ("projectFounder", "Основатель проекта"),
    ("leadDeveloper", "Ведущий разработчик"),
    ("description", "Описание"),
    ("role", "Роль"),
    ("link", "Ссылка")
  ]

  // Misc
  const RuMisc: Table := [
    ("search", "Поиск..."),
    ("write", "Написать"),
    ("edit", "Редактировать"),
    ("delete", "Удалить"),
    ("back", "Назад"),
    ("save", "Сохранить"),
    ("cancel", "Отменить"),
    ("uploadFromDevice", "Загрузить с устройства"),
    ("aboutDeveloper", "О разработчике"),
    ("technicalStack", "Технический стек"),
    ("workExperience", "Опыт работы"),
    ("language", "Язык")
  ]

  const Ru: Table := RuNavigation + RuAuth + RuProfile + RuDevelopers + RuProjects + RuMessages + RuAdmin + RuCreatorPage + RuMisc

  // Navigation
  const EnNavigation: Table := [
    ("home", "Home"),
    ("developers", "Developers"),
    ("projects", "Projects"),
    ("messages", "Messages"),
    ("aboutCreators", "About Creators"),
    ("forDevelopers", "For Developers")
  ]

  // Auth
  const EnAuth: Table := [
    ("login", "Login"),
    ("logout", "Logout"),
    ("register", "Register"),
    ("forgotPassword", "Forgot Password?"),
    ("username", "Username"),
    ("password", "Password"),
    ("email", "Email"),
    ("resetPassword", "Reset Password"),
    ("sendResetLink", "Send Reset Link"),
    ("goBack", "Back"),
    ("vkLink", "VK Link"),
    ("telegramLink", "Telegram Link"),
    ("githubLink", "GitHub Link"),
    ("technologies", "Technologies"),
    ("experienceDetails", "Experience (detailed)"),
    ("specialization", "Development Specialization")
  ]

  // Profile
  const EnProfile: Table := [
    ("profile", "Profile"),
    ("editProfile", "Edit Profile"),
    ("deleteProfile", "Delete Profile"),
    ("settings", "Settings"),
    ("experience", "Experience"),
    ("skills", "Skills"),
    ("contacts", "Contacts"),
    ("information", "Information")
  ]

  // Developers
  const EnDevelopers: Table := [
    ("searchByName", "Search by name, role, description or skills..."),
    ("yearsExperience", "years experience"),
    ("currentlyStudying", "Currently studying"),
    ("fullProfile", "Full Profile")
  ]

  // Projects
  const EnProjects: Table := [
    ("createProject", "Create Project"),
    ("projectName", "Project Name"),
    ("projectDescription", "Project Description")
  ]

  // Messages
  const EnMessages: Table := [
    ("newMessage", "New Message"),
    ("searchDialogs", "Search dialogs..."),
    ("online", "Online"),
    ("sendMessage", "Send Message"),
    ("typeMessage", "Type a message..."),
    ("loginToMessage", "Login to account")
  ]

  // Admin
  const EnAdmin: Table := [
    ("usersData", "Users Data"),
    ("usersInfo", "Information about registered users of DevNet"),
    ("activityOverview", "Activity Overview"),
    ("userActivityStats", "General statistics of user activity"),
    ("totalUsers", "Total Users"),
    ("newThisWeek", "New This Week"),
    ("users", "Users"),
    ("name", "Name"),
    ("telegram", "Telegram"),
    ("registrationDate", "Registration Date"),
    ("exportToCsv", "Export to CSV"),
    ("exportToExcel", "Export to Excel"),
    ("accessGranted", "Access Granted!")
  ]

  // Creator page
  const EnCreatorPage: Table := [
    ("meetTheTeam", "Meet the team behind the DevNet project"),
    ("projectFounder", "Project Founder"),
    ("leadDeveloper", "Lead Developer"),
    ("description", "Description"),
    ("role", "Role"),
    ("link", "Link")
  ]

  // Misc
  const EnMisc: Table := [
    ("search", "Search..."),
    ("write", "Write"),
    ("edit", "Edit"),
    ("delete", "Delete"),
    ("back", "Back"),
    ("save", "Save"),
    ("cancel", "Cancel"),
    ("uploadFromDevice", "Upload from Device"),
    ("aboutDeveloper", "About Developer"),
    ("technicalStack", "Technical Stack"),
    ("workExperience", "Work Experience"),
    ("language", "Language")
  ]

  const En: Table := EnNavigation + EnAuth + EnProfile + EnDevelopers + EnProjects + EnMessages + EnAdmin + EnCreatorPage + EnMisc

  // Each section of the two tables agrees on its own.

  lemma NavigationAgrees()
    ensures NoEmptyValue(RuNavigation) && NoEmptyValue(EnNavigation) && SameKeys(RuNavigation, EnNavigation)
  {
  }

  lemma AuthAgrees()
    ensures NoEmptyValue(RuAuth) && NoEmptyValue(EnAuth) && SameKeys(RuAuth, EnAuth)
  {
  }

  lemma ProfileAgrees()
    ensures NoEmptyValue(RuProfile) && NoEmptyValue(EnProfile) && SameKeys(RuProfile, EnProfile)
  {
  }

  lemma DevelopersAgrees()
    ensures NoEmptyValue(RuDevelopers) && NoEmptyValue(EnDevelopers) && SameKeys(RuDevelopers, EnDevelopers)
  {
  }

  lemma ProjectsAgrees()
    ensures NoEmptyValue(RuProjects) && NoEmptyValue(EnProjects) && SameKeys(RuProjects, EnProjects)
  {
  }

  lemma MessagesAgrees()
    ensures NoEmptyValue(RuMessages) && NoEmptyValue(EnMessages) && SameKeys(RuMessages, EnMessages)
  {
  }

  lemma AdminAgrees()
    ensures NoEmptyValue(RuAdmin) && NoEmptyValue(EnAdmin) && SameKeys(RuAdmin, EnAdmin)
  {
  }

  lemma CreatorPageAgrees()
    ensures NoEmptyValue(RuCreatorPage) && NoEmptyValue(EnCreatorPage) && SameKeys(RuCreatorPage, EnCreatorPage)
  {
  }

  lemma MiscAgrees()
    ensures NoEmptyValue(RuMisc) && NoEmptyValue(EnMisc) && SameKeys(RuMisc, EnMisc)
  {
  }

  /** The Russian and English tables list the same keys in the same order,
      and neither has an empty wording. */
  lemma TablesAgree()
    ensures NoEmptyValue(Ru) && NoEmptyValue(En) && SameKeys(Ru, En)
  {
    NavigationAgrees();
    AuthAgrees();
    ProfileAgrees();
    DevelopersAgrees();
    ProjectsAgrees();
    MessagesAgrees();
    AdminAgrees();
    CreatorPageAgrees();
    MiscAgrees();
    ConcatAgrees(RuNavigation, RuAuth, EnNavigation, EnAuth);
    ConcatAgrees(RuNavigation + RuAuth, RuProfile, EnNavigation + EnAuth, EnProfile);
    ConcatAgrees(RuNavigation + RuAuth + RuProfile, RuDevelopers, EnNavigation + EnAuth + EnProfile, EnDevelopers);
    ConcatAgrees(RuNavigation + RuAuth + RuProfile + RuDevelopers, RuProjects, EnNavigation + EnAuth + EnProfile + EnDevelopers, EnProjects);
    ConcatAgrees(RuNavigation + RuAuth + RuProfile + RuDevelopers + RuProjects, RuMessages, EnNavigation + EnAuth + EnProfile + EnDevelopers + EnProjects, EnMessages);
    ConcatAgrees(RuNavigation + RuAuth + RuProfile + RuDevelopers + RuProjects + RuMessages, RuAdmin, EnNavigation + EnAuth + EnProfile + EnDevelopers + EnProjects + EnMessages, EnAdmin);
    ConcatAgrees(RuNavigation + RuAuth + RuProfile + RuDevelopers + RuProjects + RuMessages + RuAdmin, RuCreatorPage, EnNavigation + EnAuth + EnProfile + EnDevelopers + EnProjects + EnMessages + EnAdmin, EnCreatorPage);
    ConcatAgrees(RuNavigation + RuAuth + RuProfile + RuDevelopers + RuProjects + RuMessages + RuAdmin + RuCreatorPage, RuMisc, EnNavigation + EnAuth + EnProfile + EnDevelopers + EnProjects + EnMessages + EnAdmin + EnCreatorPage, EnMisc);
  }

  /** A key listed in the tables looks up a non-empty wording in both. */
  lemma ListedKeyTranslated(key: string)
    requires exists i :: 0 <= i < |Ru| && Ru[i].0 == key
    ensures Lookup(Ru, key).Some? && Lookup(Ru, key).value != ""
    ensures Lookup(En, key).Some? && Lookup(En, key).value != ""
  {
    TablesAgree();
    var i :| 0 <= i < |Ru| && Ru[i].0 == key;
    assert En[i].0 == key;
  }

  /** The wording of the key `language` is the word "language" itself, in
      each language. */
  lemma LanguageEntries()
    ensures Lookup(Ru, "language") == Some("Язык")
    ensures Lookup(En, "language") == Some("Language")
  {
  }
}
