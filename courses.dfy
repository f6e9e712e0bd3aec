/**
 * The static course catalog of src/data/courses.ts and its lookup by
 * identifier.
 */
module Courses {
  import opened Wrappers

  /** One curriculum module: its name (`module` in the source) and its topics. */
  datatype CurriculumModule = CurriculumModule(name: string, topics: seq<string>)

  datatype Course = Course(
    id: string,
    category: string,
    rating: string,
    title: string,
    description: string,
    price: string,
    originalPrice: string,
    color: string,
    spotlightColor: string,
    duration: string,
    level: string,
    students: nat,
    instructor: string,
    instructorBio: string,
    curriculum: seq<CurriculumModule>,
    skills: seq<string>,
    prerequisites: seq<string>,
    certification: string,
    jobGuarantee: bool,
    placementRate: string,
    averageSalary: string)

  /** `courses`, in the source's order. */
  const Catalog: seq<Course> :=
    [FullStackDev, DataScience, MobileDevelopment, CloudEngineering, UxDesign, Cybersecurity]

  const FullStackDev: Course :=
    Course(
      id := "full-stack-dev", category := "Full Stack", rating := "4.9",
      title := "Full Stack Web Development",
      description := "Master modern web development with React, Node.js, databases, and deployment strategies.",
      price := "₹79,999", originalPrice := "₹1,29,999", color := "#3B82F6", spotlightColor := "#60A5FA",
      duration := "16 weeks", level := "Beginner to Advanced", students := 2847,
      instructor := "Sarah Chen",
      instructorBio := "Senior Software Engineer at Google with 8 years of experience building scalable web applications.",
      curriculum := [
        CurriculumModule("Frontend Fundamentals",
          ["HTML5 & CSS3", "JavaScript ES6+", "React.js", "TypeScript", "Tailwind CSS"]),
        CurriculumModule("Backend Development",
          ["Node.js & Express", "RESTful APIs", "Authentication", "Database Design", "MongoDB & PostgreSQL"]),
        CurriculumModule("Advanced Topics",
          ["GraphQL", "Microservices", "Docker", "AWS Deployment", "Testing & CI/CD"]),
        CurriculumModule("Capstone Project",
          ["Full-stack Application", "Code Review", "Performance Optimization", "Production Deployment"])
      ],
      skills := ["React.js", "Node.js", "TypeScript", "MongoDB", "AWS", "Docker", "Git"],
      prerequisites := ["Basic computer skills", "Problem-solving mindset"],
      certification := "CareerLaunch Certified Full Stack Developer", jobGuarantee := true,
      placementRate := "94%", averageSalary := "₹10,00,000")

  const DataScience: Course :=
    Course(
      id := "data-science", category := "Data Science", rating := "4.8",
      title := "Data Science & Machine Learning",
      description := "Learn Python, statistics, machine learning, and data visualization to become a data scientist.",
      price := "₹92,999", originalPrice := "₹1,45,999", color := "#10B981", spotlightColor := "#34D399",
      duration := "20 weeks", level := "Beginner to Advanced", students := 1923,
      instructor := "Dr. Michael Rodriguez",
      instructorBio := "Former Data Science Lead at Netflix with PhD in Statistics and 10 years of industry experience.",
      curriculum := [
        CurriculumModule("Python & Statistics",
          ["Python Programming", "NumPy & Pandas", "Statistical Analysis", "Data Cleaning", "Jupyter Notebooks"]),
        CurriculumModule("Machine Learning",
          ["Supervised Learning", "Unsupervised Learning", "Deep Learning", "Neural Networks", "TensorFlow"]),
        CurriculumModule("Data Visualization",
          ["Matplotlib & Seaborn", "Plotly", "Tableau", "Power BI", "Dashboard Creation"]),
        CurriculumModule("Real-world Projects",
          ["Predictive Modeling", "NLP Projects", "Computer Vision", "Big Data with Spark", "Model Deployment"])
      ],
      skills := ["Python", "Machine Learning", "Statistics", "SQL", "Tableau", "TensorFlow", "AWS"],
      prerequisites := ["Basic mathematics", "Analytical thinking"],
      certification := "CareerLaunch Certified Data Scientist", jobGuarantee := true,
      placementRate := "91%", averageSalary := "₹12,00,000")

  const MobileDevelopment: Course :=
    Course(
      id := "mobile-development", category := "Mobile Dev", rating := "4.9",
      title := "Mobile App Development",
      description := "Build native and cross-platform mobile apps using React Native and Flutter.",
      price := "₹74,999", originalPrice := "₹1,15,999", color := "#8B5CF6", spotlightColor := "#A78BFA",
      duration := "14 weeks", level := "Intermediate", students := 1456,
      instructor := "Alex Thompson",
      instructorBio := "Mobile App Architect at Uber with expertise in React Native and Flutter development.",
      curriculum := [
        CurriculumModule("Mobile Fundamentals",
          ["Mobile Design Principles", "React Native Setup", "Navigation", "State Management", "APIs"]),
        CurriculumModule("Advanced Features",
          ["Push Notifications", "Camera & Media", "Geolocation", "Offline Storage", "Performance"]),
        CurriculumModule("Cross-platform Development",
          ["Flutter Basics", "Dart Programming", "Widget System", "Platform Channels", "Testing"]),
        CurriculumModule("Publishing & Distribution",
          ["App Store Guidelines", "Play Store Publishing", "CI/CD for Mobile", "Analytics", "Monetization"])
      ],
      skills := ["React Native", "Flutter", "JavaScript", "Dart", "Mobile UI/UX", "Firebase", "Git"],
      prerequisites := ["JavaScript knowledge", "Basic programming experience"],
      certification := "CareerLaunch Certified Mobile Developer", jobGuarantee := true,
      placementRate := "89%", averageSalary := "₹9,00,000")

  const CloudEngineering: Course :=
    Course(
      id := "cloud-engineering", category := "Cloud Eng", rating := "4.7",
      title := "Cloud Engineering & DevOps",
      description := "Master AWS, Docker, Kubernetes, and DevOps practices for scalable cloud infrastructure.",
      price := "₹87,999", originalPrice := "₹1,39,999", color := "#F59E0B", spotlightColor := "#FBBF24",
      duration := "18 weeks", level := "Intermediate to Advanced", students := 1678,
      instructor := "David Park",
      instructorBio := "Cloud Solutions Architect at Amazon Web Services with expertise in large-scale infrastructure.",
      curriculum := [
        CurriculumModule("Cloud Fundamentals",
          ["AWS Core Services", "EC2 & VPC", "S3 & Storage", "IAM & Security", "Billing & Cost"]),
        CurriculumModule("Containerization",
          ["Docker Fundamentals", "Container Orchestration", "Kubernetes", "EKS", "Container Security"]),
        CurriculumModule("DevOps & Automation",
          ["CI/CD Pipelines", "Infrastructure as Code", "Terraform", "CloudFormation", "Monitoring"]),
        CurriculumModule("Advanced Topics",
          ["Microservices Architecture", "Serverless Computing", "Multi-cloud Strategy", "Disaster Recovery"])
      ],
      skills := ["AWS", "Docker", "Kubernetes", "Terraform", "Linux", "Python", "Monitoring"],
      prerequisites := ["Basic programming", "Linux command line knowledge"],
      certification := "CareerLaunch Certified Cloud Engineer", jobGuarantee := true,
      placementRate := "92%", averageSalary := "₹14,00,000")

  const UxDesign: Course :=
    Course(
      id := "ux-design", category := "UX Design", rating := "4.8",
      title := "UX/UI Design Mastery",
      description := "Create stunning user experiences with design thinking, prototyping, and user research.",
      price := "₹64,999", originalPrice := "₹1,04,999", color := "#EF4444", spotlightColor := "#F87171",
      duration := "12 weeks", level := "Beginner to Intermediate", students := 2134,
      instructor := "Emma Williams",
      instructorBio := "Lead UX Designer at Airbnb with 7 years of experience designing user-centered products.",
      curriculum := [
        CurriculumModule("Design Fundamentals",
          ["Design Principles", "Color Theory", "Typography", "Layout & Composition", "Design Systems"]),
        CurriculumModule("User Research",
          ["User Interviews", "Personas", "Journey Mapping", "Usability Testing", "Analytics"]),
        CurriculumModule("Prototyping & Tools",
          ["Figma Mastery", "Wireframing", "Prototyping", "Animation", "Handoff to Developers"]),
        CurriculumModule("Portfolio Development",
          ["Case Study Creation", "Portfolio Website", "Interview Preparation", "Client Presentation"])
      ],
      skills := ["Figma", "Sketch", "Adobe XD", "User Research", "Prototyping", "Design Systems", "HTML/CSS"],
      prerequisites := ["Creative mindset", "Basic computer skills"],
      certification := "CareerLaunch Certified UX Designer", jobGuarantee := true,
      placementRate := "87%", averageSalary := "₹7,50,000")

  const Cybersecurity: Course :=
    Course(
      id := "cybersecurity", category := "Security", rating := "4.9",
      title := "Cybersecurity Specialist",
      description := "Protect organizations from cyber threats with ethical hacking, penetration testing, and security analysis.",
      price := "₹99,999", originalPrice := "₹1,58,999", color := "#DC2626", spotlightColor := "#EF4444",
      duration := "22 weeks", level := "Intermediate to Advanced", students := 987,
      instructor := "Marcus Johnson",
      instructorBio := "Former NSA Cybersecurity Analyst with 12 years of experience in threat detection and prevention.",
      curriculum := [
        CurriculumModule("Security Fundamentals",
          ["Network Security", "Cryptography", "Risk Assessment", "Compliance", "Security Frameworks"]),
        CurriculumModule("Ethical Hacking",
          ["Penetration Testing", "Vulnerability Assessment", "Social Engineering", "Web App Security", "Mobile Security"]),
        CurriculumModule("Incident Response",
          ["Digital Forensics", "Malware Analysis", "Threat Intelligence", "SOC Operations", "Crisis Management"]),
        CurriculumModule("Advanced Topics",
          ["Cloud Security", "IoT Security", "AI in Cybersecurity", "Zero Trust Architecture", "Security Automation"])
      ],
      skills := ["Penetration Testing", "Network Security", "Python", "Linux", "SIEM", "Incident Response", "Compliance"],
      prerequisites := ["Basic networking knowledge", "Programming fundamentals"],
      certification := "CareerLaunch Certified Cybersecurity Specialist", jobGuarantee := true,
      placementRate := "95%", averageSalary := "₹16,00,000")


  /** `cs.find(c => c.id === id)`: a course in `cs` with identifier `id`, `None`
      for `undefined`; `FindIsFirstMatch` shows it is the first one. */
  function Find(cs: seq<Course>, id: string): (r: Option<Course>)
    ensures r.Some? ==> r.value.id == id && r.value in cs
    ensures r.None? <==> forall j :: 0 <= j < |cs| ==> cs[j].id != id
    decreases |cs|
  {
    if cs == [] then None
    else if cs[0].id == id then Some(cs[0])
    else Find(cs[1..], id)
  }

  /** The course found is the first in list order with that identifier. */
  lemma {:induction false} FindIsFirstMatch(cs: seq<Course>, id: string)
    requires Find(cs, id).Some?
    ensures exists i :: 0 <= i < |cs| && cs[i] == Find(cs, id).value
                        && forall j :: 0 <= j < i ==> cs[j].id != id
    decreases |cs|
  {
    if cs[0].id == id {
      assert cs[0] == Find(cs, id).value;
    } else {
      FindIsFirstMatch(cs[1..], id);
      var i :| 0 <= i < |cs[1..]| && cs[1..][i] == Find(cs[1..], id).value
               && forall j :: 0 <= j < i ==> cs[1..][j].id != id;
      assert cs[i + 1] == Find(cs, id).value;
      forall j | 0 <= j < i + 1 ensures cs[j].id != id {
        if j > 0 {
          assert cs[j] == cs[1..][j - 1];
        }
      }
    }
  }

  /** In a list without repeated identifiers, looking up an element's identifier finds that element. */
  lemma {:induction false} FindDistinct(cs: seq<Course>, i: nat)
    requires i < |cs|
    requires forall a, b :: 0 <= a < b < |cs| ==> cs[a].id != cs[b].id
    ensures Find(cs, cs[i].id) == Some(cs[i])
    decreases |cs|
  {
    if i > 0 {
      assert cs[0].id != cs[i].id;
      assert cs[1..][i - 1] == cs[i];
      FindDistinct(cs[1..], i - 1);
    }
  }

  /** `getCourseById(id)`: a lookup in the catalog. */
  function GetCourseById(id: string): (r: Option<Course>)
    ensures r.Some? ==> r.value.id == id && r.value in Catalog
    ensures r.None? <==> forall j :: 0 <= j < |Catalog| ==> Catalog[j].id != id
  {
    Find(Catalog, id)
  }

  /** The catalog has six courses, no two with the same identifier. */
  lemma CatalogIdsDistinct()
    ensures |Catalog| == 6
    ensures forall i, j :: 0 <= i < j < |Catalog| ==> Catalog[i].id != Catalog[j].id
  {
  }

  /** Every course has four curriculum modules and the job guarantee. */
  lemma CatalogShape()
    ensures forall i :: 0 <= i < |Catalog| ==> |Catalog[i].curriculum| == 4 && Catalog[i].jobGuarantee
  {
  }

  /** Looking up a catalog course's identifier finds that very course. */
  lemma LookupFindsEachCourse(i: nat)
    requires i < |Catalog|
    ensures GetCourseById(Catalog[i].id) == Some(Catalog[i])
  {
    CatalogIdsDistinct();
    FindDistinct(Catalog, i);
  }

  /** The empty identifier, which the pages use when the route has none, finds nothing. */
  lemma EmptyIdNotFound()
    ensures GetCourseById("") == None
  {
    forall j | 0 <= j < |Catalog| ensures Catalog[j].id != "" {
      assert |Catalog[j].id| > 0;
    }
  }
}
