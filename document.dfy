/** The site document: the record of translations, skills, projects,
    testimonials, links, images, counters, inquiries and snapshots that drives
    the whole portfolio site, its default value and the shallow overlay used
    when a stored document is loaded. */
module Document {
  import opened Options

  datatype Language = Vi | En

  /** A value inside a translation section: a string, a list of strings
      (`projects.filters`) or a nested group of strings (`about.stats`). */
  datatype Leaf = Text(text: string) | Texts(items: seq<string>) | Group(entries: map<string, string>)

  type Section = map<string, Leaf>
  type LangTable = map<string, Section>
  type Translations = map<Language, LangTable>

  datatype Skill = Skill(id: string, cat: string, icon: Option<string>, items: seq<string>)

  datatype Project = Project(id: string, title: string, desc: string, tags: seq<string>, cat: string, image: Option<string>)

  datatype Testimonial = Testimonial(id: string, author: string, content: string, role: string)

  datatype Inquiry = Inquiry(id: string, name: string, email: string, phone: string, message: string, timestamp: string)

  /** A point-in-time copy of the whole document, taken by the admin console;
      `name` is the snapshot's `label` (a reserved word in Dafny). */
  datatype Snapshot = Snapshot(id: string, date: string, name: string, data: Doc)

  /** The document. Each top-level key is optional: `None` stands for a key that
      an object does not carry (or carries as undefined / null), which happens
      for documents written by older versions, imported backups and old
      snapshots. */
  datatype Doc = Doc(
    translations: Option<Translations>,
    skills: Option<seq<Skill>>,
    projects: Option<seq<Project>>,
    testimonials: Option<seq<Testimonial>>,
    socials: Option<map<string, string>>,
    contactInfo: Option<map<string, string>>,
    profileImage: Option<string>,
    bannerImage: Option<string>,
    visitCount: Option<int>,
    inquiries: Option<seq<Inquiry>>,
    snapshots: Option<seq<Snapshot>>)

  /** The object with no keys at all. */
  const Empty: Doc := Doc(None, None, None, None, None, None, None, None, None, None, None)

  /** Every key whose default is not null is present. */
  predicate Complete(d: Doc) {
    && d.translations.Some? && d.skills.Some? && d.projects.Some? && d.testimonials.Some?
    && d.socials.Some? && d.contactInfo.Some? && d.visitCount.Some?
    && d.inquiries.Some? && d.snapshots.Some?
  }

  // ----- INITIAL_DATA -----

  const ViTable: LangTable := map[
    "nav" := map[
      "home" := Text("Trang chủ"),
      "about" := Text("Giới thiệu"),
      "skills" := Text("Kỹ năng"),
      "projects" := Text("Dự án"),
      "experience" := Text("Kinh nghiệm"),
      "lab" := Text("Phòng Lab"),
      "contact" := Text("Liên hệ"),
      "getInTouch" := Text("Liên hệ ngay")
    ],
    "hero" := map[
      "badge" := Text("Sẵn sàng cho các cơ hội mới"),
      "titlePrefix" := Text("Kiến tạo"),
      "titleSuffix" := Text("Tương lai của Web."),
      "bio" := Text("Tôi là Đồng Minh Phú, một kiến trúc sư phần mềm tận tâm với việc xây dựng các hệ thống hiệu suất cao và tích hợp AI trực quan."),
      "explore" := Text("Khám phá sản phẩm")
    ],
    "about" := map[
      "title" := Text("Bản sắc Kỹ thuật"),
      "stats" := Group(map["projects" := "Dự án đã bàn giao", "lines" := "Dòng mã nguồn"]),
      "expTitle" := Text("6+ NĂM"),
      "expDesc" := Text("Kỹ thuật hóa các giải pháp tác động cao.")
    ],
    "skills" := map[
      "title" := Text("Năng lực Cốt lõi"),
      "subtitle" := Text("Nền tảng công nghệ tôi tin dùng."),
      "cat1" := Text("Chuyên môn Frontend"),
      "cat2" := Text("Hệ thống Backend"),
      "cat3" := Text("Cloud & DevOps")
    ],
    "projects" := map[
      "title" := Text("Dự án Tiêu biểu"),
      "subtitle" := Text("Trình diễn sự xuất sắc kỹ thuật."),
      "filters" := Texts(["Tất cả", "Ứng dụng Web", "AI/ML", "Kiến trúc"])
    ],
    "testimonials" := map[
      "title" := Text("Đánh giá từ đối tác"),
      "subtitle" := Text("Những phản hồi về chất lượng dịch vụ và tư vấn kỹ thuật.")
    ],
    "codelab" := map[
      "title" := Text("Code Lab"),
      "subtitle" := Text("Trình diễn những cấu trúc mã nguồn tối ưu.")
    ],
    "ailab" := map[
      "title" := Text("AI Innovation Lab"),
      "subtitle" := Text("Mô tả ý tưởng của bạn, và tôi sẽ kiến tạo bản demo ngay lập tức."),
      "placeholder" := Text("Ví dụ: Tạo landing page cho startup công nghệ xanh với phong cách tối giản..."),
      "button" := Text("Kiến tạo Demo"),
      "generating" := Text("Đang thiết lập cấu trúc..."),
      "result" := Text("Kết quả Demo")
    ],
    "newsletter" := map[
      "title" := Text("Tech Insights"),
      "subtitle" := Text("Đăng ký nhận những phân tích chuyên sâu hàng tuần về Cloud & AI."),
      "placeholder" := Text("Email của bạn..."),
      "button" := Text("Đăng ký")
    ],
    "contact" := map[
      "title" := Text("Sẵn sàng khởi động"),
      "titleSuffix" := Text("dự án lớn tiếp theo?"),
      "labels" := Group(map["name" := "Họ tên", "email" := "Email", "phone" := "Số điện thoại", "message" := "Tin nhắn", "send" := "Gửi yêu cầu", "success" := "Cảm ơn! Tôi sẽ phản hồi sớm nhất."])
    ],
    "chat" := map[
      "welcome" := Text("Chào mừng! Tôi là bản sao số của Phú. Tôi có thể giúp gì cho bạn?"),
      "agent" := Text("Phú Agent v3.0"),
      "typing" := Text("Đang gõ...")
    ],
    "terminal" := map[
      "welcome" := Text("Hệ điều hành PhúOS v1.0.0. Gõ 'help' để xem các lệnh."),
      "placeholder" := Text("Gõ lệnh tại đây...")
    ],
    "stats" := map[
      "visits" := Text("Lượt truy cập")
    ]
  ]

  const EnTable: LangTable := map[
    "nav" := map[
      "home" := Text("Home"),
      "about" := Text("About"),
      "skills" := Text("Skills"),
      "projects" := Text("Projects"),
      "experience" := Text("Experience"),
      "lab" := Text("AI Lab"),
      "contact" := Text("Contact"),
      "getInTouch" := Text("Get in Touch")
    ],
    "hero" := map[
      "badge" := Text("Available for new opportunities"),
      "titlePrefix" := Text("Engineering the"),
      "titleSuffix" := Text("Future of Web."),
      "bio" := Text("I'm Đồng Minh Phú, a software architect dedicated to building high-performance systems and intuitive AI integrations."),
      "explore" := Text("Explore My Work")
    ],
    "about" := map[
      "title" := Text("Engineering Identity"),
      "stats" := Group(map["projects" := "Projects Shipped", "lines" := "Lines of Code"]),
      "expTitle" := Text("6+ YRS"),
      "expDesc" := Text("Engineering high-impact solutions.")
    ],
    "skills" := map[
      "title" := Text("Core Competencies"),
      "subtitle" := Text("The stack I trust for building scalable systems."),
      "cat1" := Text("Frontend Expertise"),
      "cat2" := Text("Backend Systems"),
      "cat3" := Text("Cloud & DevOps")
    ],
    "projects" := map[
      "title" := Text("Selected Projects"),
      "subtitle" := Text("Showcasing technical excellence."),
      "filters" := Texts(["All", "Web App", "AI/ML", "Architecture"])
    ],
    "testimonials" := map[
      "title" := Text("Testimonials"),
      "subtitle" := Text("Feedback from partners on quality and technical consulting.")
    ],
    "codelab" := map[
      "title" := Text("Code Lab"),
      "subtitle" := Text("Showcasing optimized architectural snippets.")
    ],
    "ailab" := map[
      "title" := Text("AI Innovation Lab"),
      "subtitle" := Text("Describe your vision, and I will architect a live demo in seconds."),
      "placeholder" := Text("e.g., A minimalist landing page for a sustainable fashion brand..."),
      "button" := Text("Generate Demo"),
      "generating" := Text("Architecting your vision..."),
      "result" := Text("Live Demo Result")
    ],
    "newsletter" := map[
      "title" := Text("Tech Insights"),
      "subtitle" := Text("Subscribe for weekly deep dives into Cloud & AI."),
      "placeholder" := Text("Your email..."),
      "button" := Text("Subscribe")
    ],
    "contact" := map[
      "title" := Text("Ready to start"),
      "titleSuffix" := Text("the next big thing?"),
      "labels" := Group(map["name" := "Full Name", "email" := "Email", "phone" := "Phone Number", "message" := "Message", "send" := "Send Inquiry", "success" := "Thank you! I will get back to you soon."])
    ],
    "chat" := map[
      "welcome" := Text("Welcome! I'm Phú's digital twin. How can I assist you today?"),
      "agent" := Text("Phú Agent v3.0"),
      "typing" := Text("Typing...")
    ],
    "terminal" := map[
      "welcome" := Text("PhúOS v1.0.0. Type 'help' for available commands."),
      "placeholder" := Text("Enter command...")
    ],
    "stats" := map[
      "visits" := Text("Visits")
    ]
  ]

  const DefaultTranslations: Translations := map[Vi := ViTable, En := EnTable]

  const DefaultSkills: seq<Skill> := [
    Skill("1", "cat1", Some("Layout"), ["React", "Next.js", "Tailwind", "Framer Motion", "TypeScript"]),
    Skill("2", "cat2", Some("Cpu"), ["Go", "Rust", "Node.js", "PostgreSQL", "Redis"]),
    Skill("3", "cat3", Some("Globe"), ["AWS", "Docker", "Kubernetes", "CI/CD", "Terraform"])
  ]

  const DefaultProjects: seq<Project> := [
    Project("1", "Nexus Core Platform", "Kiến trúc hệ thống Micro-services cho Fintech.", ["Go", "gRPC", "AWS"], "Architecture", None),
    Project("2", "OmniAI Engine", "Tích hợp AI dự đoán hành vi người dùng.", ["Python", "TensorFlow", "React"], "AI/ML", None),
    Project("3", "Quantum Dashboard", "Trình quản lý dữ liệu thời gian thực.", ["Next.js", "WebSockets"], "Web App", None)
  ]

  const DefaultTestimonials: seq<Testimonial> := [
    Testimonial("1", "CTO, TechVanguard", "Phú không chỉ là một lập trình viên giỏi, anh ấy là một đối tác chiến lược có tầm nhìn sâu sắc.", "Đối tác cấp cao"),
    Testimonial("2", "CEO, InnovateX", "Giải pháp kiến trúc của Phú đã giúp chúng tôi scale hệ thống lên gấp 10 lần chỉ trong 3 tháng.", "Khách hàng")
  ]

  const DefaultSocials: map<string, string> := map[
    "facebook" := "https://facebook.com",
    "youtube" := "https://youtube.com",
    "zalo" := "https://zalo.me",
    "linkedin" := "https://linkedin.com",
    "github" := "https://github.com"
  ]

  const DefaultContactInfo: map<string, string> := map[
    "phone" := "090 000 0000",
    "email" := "phu@example.com",
    "address" := "Hồ Chí Minh, Việt Nam"
  ]

  /** INITIAL_DATA: the built-in defaults, with null images, a zero visit
      count and no inquiries or snapshots. */
  const Initial: Doc := Doc(
    translations := Some(DefaultTranslations),
    skills := Some(DefaultSkills),
    projects := Some(DefaultProjects),
    testimonials := Some(DefaultTestimonials),
    socials := Some(DefaultSocials),
    contactInfo := Some(DefaultContactInfo),
    profileImage := None,
    bannerImage := None,
    visitCount := Some(0),
    inquiries := Some([]),
    snapshots := Some([]))

  lemma InitialIsComplete()
    ensures Complete(Initial)
    ensures Initial.visitCount == Some(0) && Initial.inquiries == Some([]) && Initial.snapshots == Some([])
  {
  }

  // ----- Object spread -----

  /** One key of `{ ...base, ...over }`: the overlay's value when it carries the
      key, the base's otherwise. */
  predicate Overlaid<T(==)>(r: Option<T>, base: Option<T>, over: Option<T>) {
    if over.Some? then r == over else r == base
  }

  /** `r` is `{ ...base, ...over }`, key by key. */
  predicate IsSpreadOf(r: Doc, base: Doc, over: Doc) {
    && Overlaid(r.translations, base.translations, over.translations)
    && Overlaid(r.skills, base.skills, over.skills)
    && Overlaid(r.projects, base.projects, over.projects)
    && Overlaid(r.testimonials, base.testimonials, over.testimonials)
    && Overlaid(r.socials, base.socials, over.socials)
    && Overlaid(r.contactInfo, base.contactInfo, over.contactInfo)
    && Overlaid(r.profileImage, base.profileImage, over.profileImage)
    && Overlaid(r.bannerImage, base.bannerImage, over.bannerImage)
    && Overlaid(r.visitCount, base.visitCount, over.visitCount)
    && Overlaid(r.inquiries, base.inquiries, over.inquiries)
    && Overlaid(r.snapshots, base.snapshots, over.snapshots)
  }

  function Pick<T>(base: Option<T>, over: Option<T>): Option<T> {
    if over.Some? then over else base
  }

  /** The shallow top-level spread `{ ...base, ...over }`. Nested objects such as
      `socials` or `translations` are taken whole from one side. */
  function Spread(base: Doc, over: Doc): (r: Doc)
    ensures IsSpreadOf(r, base, over)
  {
    Doc(
      Pick(base.translations, over.translations),
      Pick(base.skills, over.skills),
      Pick(base.projects, over.projects),
      Pick(base.testimonials, over.testimonials),
      Pick(base.socials, over.socials),
      Pick(base.contactInfo, over.contactInfo),
      Pick(base.profileImage, over.profileImage),
      Pick(base.bannerImage, over.bannerImage),
      Pick(base.visitCount, over.visitCount),
      Pick(base.inquiries, over.inquiries),
      Pick(base.snapshots, over.snapshots))
  }

  /** The spread is determined key by key: any document with the per-key
      property is the spread. */
  lemma SpreadUnique(r: Doc, base: Doc, over: Doc)
    requires IsSpreadOf(r, base, over)
    ensures r == Spread(base, over)
  {
  }

  /** `{ ...INITIAL_DATA, ...stored }`, the load-time merge: every default key is
      present afterwards and every key the stored object carries keeps its
      stored value. */
  function Merge(stored: Doc): (r: Doc)
    ensures Complete(r)
    ensures IsSpreadOf(r, Initial, stored)
  {
    Spread(Initial, stored)
  }

  /** An object with no keys merges to the defaults. */
  lemma MergeEmpty()
    ensures Merge(Empty) == Initial
  {
  }

  /** A document that already carries every key is left as it is by the merge;
      so merging twice is merging once. */
  lemma MergeComplete(d: Doc)
    ensures Complete(d) ==> Merge(d) == d
    ensures Merge(Merge(d)) == Merge(d)
  {
  }

  // ----- Visit counter -----

  /** `x || 0` for the counter: a missing, null or zero count reads as 0. */
  function CountOrZero(v: Option<int>): (r: int)
    ensures v.None? ==> r == 0
    ensures v.Some? ==> r == v.value
  {
    v.GetOr(0)
  }

  /** `{ ...d, visitCount: (d.visitCount || 0) + 1 }`. */
  function CountVisit(d: Doc): (r: Doc)
    ensures r.visitCount == Some(CountOrZero(d.visitCount) + 1)
    ensures d.visitCount.None? ==> r.visitCount == Some(1)
    ensures r.(visitCount := d.visitCount) == d
    ensures Complete(d) ==> Complete(r)
  {
    d.(visitCount := Some(CountOrZero(d.visitCount) + 1))
  }

  // ----- JSON text -----

  /** Text in the legacy local store or in a backup file: either the JSON
      encoding of a document or text that `JSON.parse` rejects. The empty string
      is `Unparseable("")`. */
  datatype JsonText = Serialized(doc: Doc) | Unparseable(raw: string)

  /** `JSON.stringify`; parsing its output gives the document back. */
  function Stringify(d: Doc): (t: JsonText)
    ensures Parse(t) == Some(d)
  {
    Serialized(d)
  }

  /** `JSON.parse`: fails exactly on text that is not a JSON document. */
  function Parse(t: JsonText): (r: Option<Doc>)
    ensures r.Some? <==> t.Serialized?
    ensures t.Serialized? ==> r == Some(t.doc)
  {
    match t
    case Serialized(d) => Some(d)
    case Unparseable(_) => None
  }
}
